/** Runs in which a ready block is passed over as often as one likes: blocks of one hash hand the only
    active slot to each other, and the picker is not asked. */
module HandOvers {
  import opened Masks
  import opened QueueState
  import opened HashChains
  import opened LineHeads
  import opened TriangleRing
  import opened Scheduler
  import opened SchedulerRuns
  import opened SchedulerProgress
  import opened Turns

  /** The blocks of one triangle: one of hash 9 among those of hash 7. */
  function Jobs(n: nat): seq<Job> {
    seq(n, j => Job(HashOf(j), 0))
  }

  function HashOf(j: int): int {
    if j == 1 then 9 else 7
  }

  /** A hash is in the table while it has an unfinished block, and not otherwise. */
  lemma HolderOf(s: State, h: int)
    requires SchedInv(s) && 0 <= h < EMPTY
    ensures LowestMatch(s.table, h, 0) == SLOTS <==> forall b :: 0 <= b < SLOTS && b !in s.free ==> s.log.labels[b].hash != h
  {
    hide HeadsRun, Logged, Pending, RingInv;
    var c := View(s);
    TableLookup(c, h);
    if h in c.lines {
      assert Line(c, h, c.lines[h]);
      var b := c.lines[h][0];
      assert b !in s.free && s.log.labels[b].hash == h;
    } else {
      forall b | 0 <= b < SLOTS && b !in s.free ensures s.log.labels[b].hash != h {
        assert Queued(c, b);
      }
    }
  }

  // ---- filling the slots ----

  /** The first k of n blocks have been produced, into the slots from 31 down. */
  ghost predicate Filling(s: State, k: nat, n: nat) {
    && Shape(s) && s.active == [EMPTY] && k <= SLOTS < n && s.lastStarted == 0 && s.log.starts == []
    && (forall b :: b in s.free <==> 0 <= b < SLOTS - k) && s.lastAdded == (if k == 0 then 0 else SLOTS - k)
    && (forall b :: b in s.ready <==> (b == 31 && k > 0) || (b == 30 && k > 1))
    && (forall b :: SLOTS - k <= b < SLOTS ==> s.log.labels[b].hash == HashOf(31 - b) && s.blocks[b].stalls == 0)
    && s.tris[s.nextRead].produce && |s.tris[s.nextRead].jobs| == n - k && !s.tris[(s.nextRead + 1) % TRIS].produce
    && forall j :: 0 <= j < n - k ==> s.tris[s.nextRead].jobs[j] == Job(HashOf(k + j), 0)
  }

  lemma NextSlot(s: State, k: nat, n: nat)
    requires Filling(s, k, n) && k < SLOTS
    ensures Pick(s.free, s.lastAdded) == 31 - k
  {
    assert 31 - k in s.free;
    assert Turn(s.lastAdded, 31 - k) == 1;
  }

  lemma NextHolder(s: State, k: nat, n: nat)
    requires SchedInv(s) && Filling(s, k, n) && k < SLOTS
    ensures LowestMatch(s.table, HashOf(k), 0) == SLOTS <==> k < 2
  {
    HolderOf(s, HashOf(k));
    hide SchedInv;
    if k >= 2 {
      assert 31 !in s.free && s.log.labels[31].hash == 7;
    }
  }

  lemma {:induction false} FillNext(s: State, k: nat, n: nat)
    requires SchedInv(s) && Filling(s, k, n) && k < SLOTS
    ensures 31 - k in s.free && s.tris[s.nextRead].jobs != [] && Filling(Produce(s), k + 1, n)
  {
    NextSlot(s, k, n);
    NextHolder(s, k, n);
    Filled(s, k, n);
  }

  lemma Filled(s: State, k: nat, n: nat)
    requires Filling(s, k, n) && k < SLOTS && Pick(s.free, s.lastAdded) == 31 - k
    requires LowestMatch(s.table, HashOf(k), 0) == SLOTS <==> k < 2
    ensures 31 - k in s.free && s.tris[s.nextRead].jobs != [] && Filling(Produce(s), k + 1, n)
  {
    assert 31 - k in s.free && s.tris[s.nextRead].jobs[0] == Job(HashOf(k), 0);
    TriangleRing.ProduceShape(s);
    hide Pick, LowestMatch, ChainTable, Enqueue, HashOf;
  }

  ghost predicate Fills(s: State, k: nat, n: nat) {
    SchedInv(s) && Filling(s, k, n)
  }

  lemma {:induction false} FillStep(s: State, k: nat, n: nat)
    requires Fills(s, k, n)
    ensures Sane(s) && Shape(s) && k <= SLOTS && s.tris[s.nextRead].produce && (k == SLOTS ==> s.free == {})
    ensures k < SLOTS ==> s.free != {} && s.tris[s.nextRead].jobs != [] && Sane(Produce(s)) && Fills(Produce(s), k + 1, n) && |Produce(s).free| < |s.free|
  {
    hide Filling, SchedInv, Sane, Produce;
    InvIsSane(s);
    StillProducing(s, k, n);
    if k < SLOTS {
      FillNext(s, k, n);
      ProduceInv(s);
      ProducedIsSane(s);
    }
  }

  lemma {:induction false} FillAll(s: State, k: nat, n: nat)
    requires Fills(s, k, n)
    ensures Sane(s) && Fills(ProduceAll(s), SLOTS, n)
    decreases SLOTS - k
  {
    hide Fills, Produce, Sane;
    FillStep(s, k, n);
    if k < SLOTS {
      FillAll(Produce(s), k + 1, n);
    }
  }

  lemma StillProducing(s: State, k: nat, n: nat)
    requires Filling(s, k, n)
    ensures k <= SLOTS && s.tris[s.nextRead].produce && (k < SLOTS ==> s.free != {}) && (k == SLOTS ==> s.free == {})
  {
    assert k < SLOTS ==> 31 - k in s.free;
  }

  // ---- one after the other ----

  /** The active slot has a block of hash 7, the block of hash 9 is ready, all the others wait, and the
      triangle has `left` more. */
  ghost predicate Passing(s: State, left: nat) {
    && Shape(s) && |s.active| == 1 && s.active[0] != EMPTY && s.active[0] != 30 && s.free == {} && s.ready == {30}
    && (forall b :: 0 <= b < SLOTS ==> s.log.labels[b].hash == (if b == 30 then 9 else 7) && s.blocks[b].stalls == 0)
    && (left > 0 ==> s.tris[s.nextRead].produce && |s.tris[s.nextRead].jobs| == left)
    && (left > 0 ==> forall j :: 0 <= j < left ==> s.tris[s.nextRead].jobs[j] == Job(7, 0))
    && (if left == 0 then !s.tris[s.nextRead].produce else !s.tris[(s.nextRead + 1) % TRIS].produce)
  }

  /** The running block has a successor, which is not the one of hash 9. */
  lemma {:induction false} NextOfItsHash(s: State, left: nat)
    requires SchedInv(s) && Passing(s, left)
    ensures 0 <= s.chained[s.active[0]] < SLOTS && s.chained[s.active[0]] != 30 && s.chained[s.active[0]] != s.active[0]
  {
    hide Logged, Pending, RingInv;
    var c := View(s);
    var a := s.active[0];
    var other := if a == 0 then 1 else 0;
    assert Head(c, a) && Queued(c, other);
    var q := c.lines[7];
    assert Line(c, 7, q);
    var k :| 0 <= k < |q| && q[k] == other;
    assert q[0] == a && c.chained[q[0]] == q[1];
  }

  /** A call: the running block finishes and hands over, and its slot gets the next block. */
  lemma {:induction false} HandsOver(s: State, left: nat)
    requires SchedInv(s) && Passing(s, left) && left > 0
    ensures Sane(s) && s.log.starts <= ProcessQueue(s, {0}, []).log.starts
    ensures var r := ProcessQueue(s, {0}, []);
            && Passing(r, left - 1) && |r.log.starts| == |s.log.starts| + 1
            && var c := r.log.starts[|s.log.starts|]; c.handed && c.slot != 30
  {
    InvIsSane(s);
    NextOfItsHash(s, left);
    HashStays(s, left);
    ThenProduces(s, left);
  }

  lemma {:induction false} HashStays(s: State, left: nat)
    requires SchedInv(s) && Sane(s) && Passing(s, left)
    ensures LowestMatch(Visit(s, 0).table, 7, 0) < SLOTS
  {
    NextOfItsHash(s, left);
    VisitInv(s, 0);
    VisitPassing(s, left);
    HolderOf(Visit(s, 0), 7);
    var next := s.chained[s.active[0]];
    assert next !in Visit(s, 0).free && Visit(s, 0).log.labels[next].hash == 7;
    hide SchedInv, Visit;
  }

  lemma ThenProduces(s: State, left: nat)
    requires Sane(s) && Passing(s, left) && left > 0 && LowestMatch(Visit(s, 0).table, 7, 0) < SLOTS
    requires 0 <= s.chained[s.active[0]] < SLOTS && s.chained[s.active[0]] != 30 && s.chained[s.active[0]] != s.active[0]
    ensures s.log.starts <= ProcessQueue(s, {0}, []).log.starts
    ensures var r := ProcessQueue(s, {0}, []);
            && Passing(r, left - 1) && |r.log.starts| == |s.log.starts| + 1
            && var c := r.log.starts[|s.log.starts|]; c.handed && c.slot != 30
  {
    OneVisit(s);
    VisitPassing(s, left);
    var v := Visit(s, 0);
    hide Visit, ProduceAll, Scan;
    ProducePassing(v, s.active[0], left);
    assert GenerateAll(ProduceAll(v), []) == ProduceAll(v);
  }

  lemma ProducePassing(v: State, a: nat, left: nat)
    requires Sane(v) && |v.active| == 1 && v.active[0] != EMPTY && v.active[0] != 30 && v.ready == {30} && v.free == {a} && a != 30
    requires forall b :: 0 <= b < SLOTS ==> v.log.labels[b].hash == (if b == 30 then 9 else 7) && v.blocks[b].stalls == 0
    requires left > 0 && v.tris[v.nextRead].produce && |v.tris[v.nextRead].jobs| == left
    requires forall j :: 0 <= j < left ==> v.tris[v.nextRead].jobs[j] == Job(7, 0)
    requires !v.tris[(v.nextRead + 1) % TRIS].produce
    requires LowestMatch(v.table, 7, 0) < SLOTS
    ensures Passing(ProduceAll(v), left - 1) && ProduceAll(v).log.starts == v.log.starts
  {
    ProducedIsSane(v);
    var p := Produce(v);
    OnlySlot(v, a);
    TakesIt(v, a, left);
    hide Produce;
    assert p.free == {} && ProduceAll(p) == p;
    assert ProduceAll(v) == ProduceAll(p);
  }

  lemma OnlySlot(v: State, a: nat)
    requires Sane(v) && v.free == {a}
    ensures a < SLOTS && Pick(v.free, v.lastAdded) == a
  {
    assert a in v.free;
  }

  lemma TakesIt(v: State, a: nat, left: nat)
    requires Sane(v) && |v.active| == 1 && v.active[0] != EMPTY && v.active[0] != 30 && v.ready == {30} && v.free == {a} && a != 30
    requires forall b :: 0 <= b < SLOTS ==> v.log.labels[b].hash == (if b == 30 then 9 else 7) && v.blocks[b].stalls == 0
    requires left > 0 && v.tris[v.nextRead].produce && |v.tris[v.nextRead].jobs| == left
    requires forall j :: 0 <= j < left ==> v.tris[v.nextRead].jobs[j] == Job(7, 0)
    requires !v.tris[(v.nextRead + 1) % TRIS].produce
    requires LowestMatch(v.table, 7, 0) < SLOTS && a < SLOTS && Pick(v.free, v.lastAdded) == a
    ensures Sane(Produce(v)) && Passing(Produce(v), left - 1) && Produce(v).log.starts == v.log.starts
  {
    ProducedIsSane(v);
    assert v.tris[v.nextRead].jobs[0] == Job(7, 0);
    hide Pick, LowestMatch, ChainTable, Enqueue, Sane;
    var p := Produce(v);
    assert p.free == {};
    assert left > 1 ==> p.nextRead == v.nextRead && p.tris[p.nextRead].jobs == v.tris[v.nextRead].jobs[1..];
  }

  lemma OneVisit(s: State)
    requires Sane(s) && |s.active| == 1
    ensures Scan(s, {0}, 0) == Visit(s, 0)
  {
    hide Visit;
    assert Scan(Visit(s, 0), {0}, 1) == Visit(s, 0);
  }

  lemma VisitPassing(s: State, left: nat)
    requires Sane(s) && Passing(s, left) && 0 <= s.chained[s.active[0]] < SLOTS && s.chained[s.active[0]] != 30
    requires s.chained[s.active[0]] != s.active[0]
    ensures var v, next := Visit(s, 0), s.chained[s.active[0]];
            && v.active == [next] && v.ready == {30} && v.free == {s.active[0]} && v.log.labels == s.log.labels
            && v.log.starts == s.log.starts + [Choice(next, {30, next}, true)]
            && v.nextRead == s.nextRead && v.tris[v.nextRead].produce == s.tris[s.nextRead].produce
            && v.tris[v.nextRead].jobs == s.tris[s.nextRead].jobs
            && v.tris[(v.nextRead + 1) % TRIS].produce == s.tris[(s.nextRead + 1) % TRIS].produce
            && forall b :: 0 <= b < SLOTS ==> v.blocks[b].stalls == 0
  {
    assert Finish(s, 0).ready == {30, s.chained[s.active[0]]};
  }

  // ---- the runs ----

  /** Two calls bring the triangle and fill the slots; the third starts the first block. */
  function Opening(m: nat): seq<Call> {
    [Call({}, [Jobs(33 + m)]), Call({}, []), Call({0}, [])]
  }

  function Rounds(m: nat): seq<Call> {
    seq(m, k => Call({0}, []))
  }

  lemma {:induction false} Arrives(m: nat)
    ensures Offers([Jobs(33 + m)]) && Sane(Init(1))
    ensures Fills(ProcessQueue(Init(1), {}, [Jobs(33 + m)]), 0, 33 + m)
  {
    OneOffer(m);
    assert 1 <= MAX_ACTIVE;
    hide *;
    InitInv(1);
    InvIsSane(Init(1));
    ProcessQueueInv(Init(1), {}, [Jobs(33 + m)]);
    InitIsEmpty();
    JustGenerates(Init(1), Jobs(33 + m));
    GeneratedFilling(m);
    BothAreFills(Generate(Init(1), Jobs(33 + m)), 33 + m);
  }

  lemma OneOffer(m: nat)
    ensures Offers([Jobs(33 + m)]) && Triangles([Jobs(33 + m)]) && Jobs(33 + m) != []
  {
    assert Hashes(Jobs(33 + m));
  }

  lemma BothAreFills(s: State, n: nat)
    requires SchedInv(s) && Filling(s, 0, n)
    ensures Fills(s, 0, n)
  {
    hide SchedInv, Filling;
  }

  lemma InitIsEmpty()
    ensures var s := Init(1); Shape(s) && |s.active| == 1 && !s.tris[s.nextRead].produce && s.tris[s.nextWrite].count == 0
  {
  }

  lemma GeneratedFilling(m: nat)
    requires Shape(Init(1))
    ensures Filling(Generate(Init(1), Jobs(33 + m)), 0, 33 + m)
  {
  }

  lemma NoScan(s: State)
    requires Sane(s) && |s.active| == 1
    ensures Scan(s, {}, 0) == s
  {
    assert Scan(s, {}, 1) == s;
  }

  lemma {:induction false} JustGenerates(s: State, jobs: seq<Job>)
    requires Sane(s) && |s.active| == 1 && !s.tris[s.nextRead].produce && s.tris[s.nextWrite].count == 0 && jobs != []
    requires Triangles([jobs])
    ensures ProcessQueue(s, {}, [jobs]) == Generate(s, jobs)
  {
    NoScan(s);
    hide Scan, Generate;
    assert ProduceAll(s) == s && [jobs][1..] == [];
    assert GenerateAll(Generate(s, jobs), []) == Generate(s, jobs);
  }

  lemma {:induction false} AllSlots(s: State, n: nat)
    requires Fills(s, 0, n)
    ensures Sane(s) && Fills(ProcessQueue(s, {}, []), SLOTS, n)
  {
    FillAll(s, 0, n);
    OneActive(s, 0, n);
    NoScan(s);
    hide Fills, Scan, ProduceAll, Sane;
    assert GenerateAll(ProduceAll(s), []) == ProduceAll(s);
  }

  lemma OneActive(s: State, k: nat, n: nat)
    requires Fills(s, k, n)
    ensures |s.active| == 1
  {
    hide SchedInv;
  }

  lemma {:induction false} FirstStarts(s: State, n: nat)
    requires Fills(s, SLOTS, n)
    ensures Sane(s) && var r := ProcessQueue(s, {0}, []); Passing(r, n - SLOTS)
  {
    FillStep(s, SLOTS, n);
    hide SchedInv;
    FirstPick(s, n);
  }

  lemma FirstPick(s: State, n: nat)
    requires Sane(s) && Filling(s, SLOTS, n)
    ensures var r := ProcessQueue(s, {0}, []); Passing(r, n - SLOTS)
  {
    OneVisit(s);
    assert s.ready == {30, 31} && 31 in s.ready;
    assert Turn(0, 31) == 1;
    var v := Visit(s, 0);
    assert v == Start(s, 0, 31, false);
    hide Pick, Visit, Scan;
    assert v.ready == {30} && v.free == {};
    assert ProduceAll(v) == v && GenerateAll(v, []) == v;
  }

  lemma {:induction false} CallsOfBoth(m: nat, k: nat)
    ensures Calls(Opening(m)) && Calls(Rounds(k)) && Calls(Opening(m) + Rounds(k))
  {
    assert Hashes(Jobs(33 + m));
  }

  lemma {:induction false} Opened(m: nat)
    requires Calls(Opening(m))
    ensures Passing(Reach(1, Opening(m)), m + 1)
  {
    hide Fills, Passing, ProcessQueue, Init, SchedInv, Sane;
    var first, second, third := Call({}, [Jobs(33 + m)]), Call({}, []), Call({0}, []);
    Arrives(m);
    NoCalls();
    ReachStep(1, [], first);
    ReachStep(1, [] + [first], second);
    ReachStep(1, [] + [first] + [second], third);
    AllSlots(Reach(1, [] + [first]), 33 + m);
    FirstStarts(Reach(1, [] + [first] + [second]), 33 + m);
    assert Opening(m) == [] + [first] + [second] + [third];
  }

  /** After k rounds. */
  ghost predicate Rounded(s: State, r: State, k: nat) {
    && s.log.starts <= r.log.starts
    && var since := r.log.starts[|s.log.starts|..];
       |since| == k && Handed(since) == k && forall j :: 0 <= j < k ==> since[j].slot != 30
  }

  lemma {:induction false} AfterRounds(m: nat, k: nat)
    requires k <= m && Calls(Opening(m))
    ensures Calls(Opening(m) + Rounds(k))
    ensures var s, r := Reach(1, Opening(m)), Reach(1, Opening(m) + Rounds(k));
            Passing(r, m + 1 - k) && Rounded(s, r, k)
    decreases k
  {
    CallsOfBoth(m, k);
    hide Passing, SchedInv, ProcessQueue, Opening, Reach, Rounded, Calls, Sane;
    if k == 0 {
      assert Opening(m) + Rounds(0) == Opening(m);
      Opened(m);
      NoRounds(Reach(1, Opening(m)));
    } else {
      AfterRounds(m, k - 1);
      var calls := Opening(m) + Rounds(k - 1);
      ReachStep(1, calls, Call({0}, []));
      assert calls + [Call({0}, [])] == Opening(m) + Rounds(k);
      HandsOver(Reach(1, calls), m + 2 - k);
      RoundedOn(Reach(1, Opening(m)), Reach(1, calls), Reach(1, Opening(m) + Rounds(k)), k - 1);
    }
  }

  lemma NoRounds(s: State)
    ensures Rounded(s, s, 0)
  {
  }

  lemma RoundedOn(s: State, t: State, r: State, k: nat)
    requires Rounded(s, t, k) && t.log.starts <= r.log.starts && |r.log.starts| == |t.log.starts| + 1
    requires r.log.starts[|t.log.starts|].handed && r.log.starts[|t.log.starts|].slot != 30
    ensures Rounded(s, r, k + 1)
  {
    var n := |s.log.starts|;
    assert r.log.starts[n..][..k] == t.log.starts[n..];
  }

  /** However large m is: there is a run in which a block that is ready, in slot 30, is passed over by m
      starts in a row, all of them handed over from a block of hash 7 to the next. */
  lemma {:induction false} PassedOverForEver(m: nat)
    ensures Calls(Opening(m)) && Calls(Rounds(m)) && Calls(Opening(m) + Rounds(m))
    ensures var s, r := Reach(1, Opening(m)), Reach(1, Opening(m) + Rounds(m));
            && 30 in s.ready && 30 in r.ready && s.log.starts <= r.log.starts
            && var since := r.log.starts[|s.log.starts|..];
               |since| == m && Handed(since) == m && forall k :: 0 <= k < m ==> since[k].slot != 30
  {
    CallsOfBoth(m, m);
    AfterRounds(m, m);
    Opened(m);
    hide Reach, Opening, SchedInv;
  }
}
