/** A run in which a block with an ordinary hash loses its turn to one with the hash 0xffff: 33 blocks
    of hash 7 and behind them the other, with one active slot. */
module UnsetHashExample {
  import opened Masks
  import opened QueueState
  import opened Scheduler
  import opened SchedulerRuns
  import opened UnsetHash
  import TriangleRing

  const SEVEN: Job := Job(7, 0)
  const UNSET: Job := Job(EMPTY, 0)

  function Sevens(n: nat): seq<Job> {
    seq(n, j => SEVEN)
  }

  /** Two triangles arrive; nothing completes for one call; then the transfers of the active slot do. */
  function LosingRun(): seq<Call> {
    [Call({}, [Sevens(32), [SEVEN, UNSET]]), Call({}, []), Call({0}, []), Call({0}, []), Call({0}, [])]
  }

  /** k of the 32 blocks of the first triangle have been produced, from slot 31 down. */
  ghost predicate Filled(s: State, k: nat) {
    && Sane(s) && k <= 32 && s.active == [EMPTY] && s.ready == (if k == 0 then {} else {31}) && s.lastStarted == 0
    && (forall b :: b in s.free <==> 0 <= b < 32 - k) && s.lastAdded == (if k == 0 then 0 else 32 - k)
    && (forall b :: 0 <= b < 32 ==> s.table[b] == if k > 0 && b == 32 - k then 7 else EMPTY)
    && (forall b :: 32 - k < b < 32 ==> s.chained[b] == b - 1)
    && (forall b :: 32 - k <= b < 32 ==> s.blocks[b].stalls == 0)
    && Waits(s, k)
  }

  /** What the two triangles still have to produce. */
  ghost predicate Waits(s: State, k: nat)
    requires Sane(s) && k <= 32
  {
    && s.nextRead == (if k < 32 then 0 else 1)
    && (k < 32 ==> s.tris[0].produce && s.tris[0].jobs == Sevens(32 - k))
    && s.tris[1].produce && s.tris[1].jobs == [SEVEN, UNSET]
  }

  lemma PickNext(s: State, k: nat)
    requires Filled(s, k) && k < 32
    ensures Pick(s.free, s.lastAdded) == 31 - k
    ensures LowestMatch(s.table, 7, 0) == if k == 0 then 32 else 32 - k
  {
    assert 31 - k in s.free;
    assert Turn(s.lastAdded, 31 - k) == 1;
    assert k > 0 ==> s.table[32 - k] == 7;
  }

  lemma FillOne(s: State, k: nat)
    requires Filled(s, k) && k < 32
    ensures s.free != {} && s.tris[s.nextRead].jobs != [] && Filled(Produce(s), k + 1)
  {
    assert 31 - k in s.free;
    ProducedIsSane(s);
    FillTables(s, k);
    FillBlocks(s, k);
    hide Produce;
  }

  /** What the next block of the first triangle does to the hash table. */
  lemma FillTables(s: State, k: nat)
    requires Filled(s, k) && k < 32
    ensures 31 - k in s.free && s.tris[s.nextRead].jobs != []
    ensures var p := Produce(s);
            && |p.table| == 32 && |p.chained| == 33
            && (forall b :: b in p.free <==> 0 <= b < 32 - (k + 1)) && p.lastAdded == 31 - k
            && (forall b :: 0 <= b < 32 ==> p.table[b] == if b == 31 - k then 7 else EMPTY)
            && (forall b :: 31 - k < b < 32 ==> p.chained[b] == b - 1)
            && p.ready == {31} && p.active == s.active && p.lastStarted == s.lastStarted
  {
    PickNext(s, k);
    assert 31 - k in s.free;
    hide Pick, LowestMatch, Turn, Waits;
    assert s.tris[s.nextRead].jobs[0] == SEVEN by { WaitsIsSeven(s, k); }
  }

  lemma WaitsIsSeven(s: State, k: nat)
    requires Sane(s) && k < 32 && Waits(s, k)
    ensures s.nextRead == 0 && s.tris[0].jobs != [] && s.tris[0].jobs[0] == SEVEN
    ensures s.tris[0].jobs[1..] == Sevens(31 - k) && |s.tris[0].jobs| == 32 - k
  {
  }

  /** And to the blocks and the triangles. */
  lemma FillBlocks(s: State, k: nat)
    requires Filled(s, k) && k < 32 && s.free != {} && s.tris[s.nextRead].jobs != [] && Sane(Produce(s))
    ensures Waits(Produce(s), k + 1)
    ensures forall b :: 32 - (k + 1) <= b < 32 ==> Produce(s).blocks[b].stalls == 0
  {
    PickNext(s, k);
    WaitsIsSeven(s, k);
    assert 31 - k in s.free;
    hide Pick, LowestMatch, Turn, ChainTable, Sane;
  }

  lemma {:induction false} FillAll(s: State, k: nat)
    requires k <= 32 && Filled(s, k)
    ensures Sane(s) && Filled(ProduceAll(s), 32)
    decreases 32 - k
  {
    assert Sane(s);
    hide Filled;
    if k < 32 {
      FilledGoesOn(s, k);
      FillOne(s, k);
      FillAll(Produce(s), k + 1);
    } else {
      FilledIsFull(s);
    }
  }

  lemma FilledGoesOn(s: State, k: nat)
    requires Filled(s, k) && k < 32
    ensures Sane(s) && s.free != {} && s.tris[s.nextRead].produce && Sane(Produce(s)) && |Produce(s).free| < |s.free|
  {
    assert 31 - k in s.free;
    ProducedIsSane(s);
  }

  lemma FilledIsFull(s: State)
    requires Filled(s, 32)
    ensures Sane(s) && s.free == {}
  {
  }

  /** The first block has started; all slots are taken. */
  ghost predicate Running31(s: State) {
    && Sane(s) && s.active == [31] && s.ready == {} && s.free == {} && s.lastAdded == 0
    && (forall b :: 0 <= b < 32 ==> s.table[b] == if b == 0 then 7 else EMPTY)
    && (forall b :: 0 < b < 32 ==> s.chained[b] == b - 1)
    && (forall b :: 0 <= b < 32 ==> s.blocks[b].stalls == 0)
    && Waits(s, 32)
  }

  /** The second one has, and the last block of hash 7 is in the slot of the first, chained to slot 0. */
  ghost predicate Running30(s: State) {
    && Sane(s) && s.active == [30] && s.ready == {} && s.free == {} && s.lastAdded == 31
    && (forall b :: 0 <= b < 32 ==> s.table[b] == if b == 31 then 7 else EMPTY)
    && (forall b :: 0 < b < 31 ==> s.chained[b] == b - 1) && s.chained[0] == 31 && s.chained[31] == -1
    && (forall b :: 0 <= b < 32 ==> s.blocks[b].stalls == 0) && s.log.labels[31].hash == 7
    && s.nextRead == 1 && s.tris[1].produce && s.tris[1].jobs == [UNSET]
  }

  lemma OneSlotScan(s: State, completed: set<nat>)
    requires Sane(s) && |s.active| == 1
    ensures Scan(s, completed, 0) == if 0 in completed then Visit(s, 0) else s
  {
    hide Visit;
    var r := if 0 in completed then Visit(s, 0) else s;
    assert Scan(r, completed, 1) == r;
  }

  lemma FirstStarts(s: State)
    requires Filled(s, 32)
    ensures Running31(ProcessQueue(s, {0}, []))
  {
    OneSlotScan(s, {0});
    assert Pick({31}, 0) == 31;
    hide Pick, Scan;
    var v := Visit(s, 0);
    assert v == Start(s, 0, 31, false);
    assert v.free == {};
  }

  lemma SecondStarts(s: State)
    requires Running31(s)
    ensures Running30(ProcessQueue(s, {0}, []))
  {
    OneSlotScan(s, {0});
    var v := Visit(s, 0);
    assert v == Start(Finish(s, 0), 0, 30, true);
    assert v.free == {31} && v.active == [30] && v.ready == {};
    hide Scan, Visit;
    RefillSlot31(v);
    ProducedIsSane(v);
    assert ProduceAll(Produce(v)) == Produce(v);
  }

  lemma RefillSlot31(v: State)
    requires Sane(v) && v.active == [30] && v.ready == {} && v.free == {31} && v.lastAdded == 0
    requires forall b :: 0 <= b < 32 ==> v.table[b] == if b == 0 then 7 else EMPTY
    requires (forall b :: 0 < b < 31 ==> v.chained[b] == b - 1) && v.chained[31] == -1
    requires (forall b :: 0 <= b < 32 ==> v.blocks[b].stalls == 0) && Waits(v, 32)
    ensures Running30(Produce(v))
  {
    assert Pick({31}, 0) == 31;
    assert LowestMatch(v.table, 7, 0) == 0;
    ProducedIsSane(v);
    hide Pick, LowestMatch;
  }

  /** The block of hash 7 in slot 31 has lost its turn. */
  lemma ThirdStarts(s: State)
    requires Running30(s)
    ensures var r := ProcessQueue(s, {0}, []);
            Lost(r, 31) && r.log.labels[31].hash == 7
  {
    OneSlotScan(s, {0});
    var v := Visit(s, 0);
    assert v == Start(Finish(s, 0), 0, 29, true);
    assert v.free == {30} && v.active == [29] && v.ready == {};
    hide Scan, Visit;
    LoseSlot31(v);
    ProducedIsSane(v);
    assert ProduceAll(Produce(v)) == Produce(v);
  }

  lemma LoseSlot31(v: State)
    requires Sane(v) && v.active == [29] && v.ready == {} && v.free == {30} && v.lastAdded == 31 && v.log.labels[31].hash == 7
    requires forall b :: 0 <= b < 32 ==> v.table[b] == if b == 31 then 7 else EMPTY
    requires (forall b :: 0 < b < 30 ==> v.chained[b] == b - 1) && v.chained[0] == 31 && v.chained[31] == -1 && v.chained[30] == -1
    requires v.nextRead == 1 && v.tris[1].produce && v.tris[1].jobs == [UNSET]
    ensures Shape(Produce(v)) && Lost(Produce(v), 31) && Produce(v).log.labels[31].hash == 7 && Produce(v).free == {}
  {
    assert Pick({30}, 31) == 30;
    assert LowestMatch(v.table, EMPTY, 0) == 0;
    ProducedIsSane(v);
    hide Pick, LowestMatch;
  }

  lemma Begins()
    ensures Sane(Init(1)) && Triangles(LosingRun()[0].arrivals)
    ensures Filled(ProcessQueue(Init(1), {}, LosingRun()[0].arrivals), 0)
  {
    hide Filled, ProcessQueue, Fine, Init, ProduceAll, Sane, Sevens;
    StartsEmpty();
    assert LosingRun()[0].arrivals == [Sevens(32), [SEVEN, UNSET]];
    LosingRunIsPlain();
    TwoArrive(Init(1));
  }

  lemma StartsEmpty()
    ensures Sane(Init(1)) && ProduceAll(Init(1)) == Init(1)
    ensures var s := Init(1);
            && s.active == [EMPTY] && s.ready == {} && s.lastStarted == 0 && s.lastAdded == 0
            && (forall b :: b in s.free <==> 0 <= b < 32) && (forall b :: 0 <= b < 32 ==> s.table[b] == EMPTY)
            && s.nextRead == s.nextWrite == 0 && s.tris[0].count == s.tris[1].count == 0
            && (forall b :: 0 <= b < 32 ==> s.blocks[b].stalls == 0)
  {
    hide Fine, Sane, ProduceAll;
    InitIsFine(1);
    NothingToProduce(Init(1));
  }

  lemma NothingToProduce(s: State)
    requires Sane(s) && !s.tris[s.nextRead].produce
    ensures ProduceAll(s) == s
  {
  }

  lemma TwoArrive(s: State)
    requires Sane(s) && s.active == [EMPTY] && s.ready == {} && s.lastStarted == 0 && s.lastAdded == 0
    requires (forall b :: b in s.free <==> 0 <= b < 32) && (forall b :: 0 <= b < 32 ==> s.table[b] == EMPTY)
    requires s.nextRead == s.nextWrite == 0 && s.tris[0].count == s.tris[1].count == 0 && ProduceAll(s) == s
    ensures Filled(ProcessQueue(s, {}, [Sevens(32), [SEVEN, UNSET]]), 0)
  {
    OneSlotScan(s, {});
    hide Scan, ProduceAll, GenerateAll, Sevens;
    assert |Sevens(32)| == 32 by { SevensSize(32); }
    BothGenerated(s, Sevens(32), [SEVEN, UNSET]);
    BothWait(s, Sevens(32), [SEVEN, UNSET]);
    hide Sane, Generate;
  }

  lemma BothWait(s: State, first: seq<Job>, second: seq<Job>)
    requires Shape(s) && s.nextRead == s.nextWrite == 0
    ensures Shape(Generate(s, first))
    ensures var r := Generate(Generate(s, first), second);
            && |r.tris| == 10 && r.tris[0] == Tri(1, true, first) && r.tris[1] == Tri(1, true, second)
            && r == s.(tris := r.tris, nextWrite := r.nextWrite, busy := r.busy, log := r.log)
  {
  }

  lemma SevensSize(n: nat)
    ensures |Sevens(n)| == n
  {
  }

  lemma GeneratesFirst(s: State, arrivals: seq<seq<Job>>)
    requires Sane(s) && Triangles(arrivals) && arrivals != [] && s.tris[s.nextWrite].count == 0
    ensures Sane(Generate(s, arrivals[0])) && GenerateAll(s, arrivals) == GenerateAll(Generate(s, arrivals[0]), arrivals[1..])
  {
  }

  /** Two triangles go into the first two places of an empty ring. */
  lemma BothGenerated(s: State, first: seq<Job>, second: seq<Job>)
    requires Sane(s) && s.nextWrite == 0 && s.tris[0].count == s.tris[1].count == 0 && first != [] && second != []
    ensures Triangles([first, second]) && GenerateAll(s, [first, second]) == Generate(Generate(s, first), second)
  {
    var a := [first, second];
    var g := Generate(s, first);
    assert a[1..] == [second] && a[1..][1..] == [];
    GeneratesFirst(s, a);
    assert g.nextWrite == 1 && g.tris[1].count == 0;
    GeneratesFirst(g, [second]);
    hide Generate;
    assert [second][1..] == [] && GenerateAll(Generate(g, second), []) == Generate(g, second);
  }

  lemma Fills(s: State)
    requires Filled(s, 0)
    ensures Sane(s) && Filled(ProcessQueue(s, {}, []), 32)
  {
    OneSlotScan(s, {});
    FillAll(s, 0);
    hide Scan, ProduceAll, Filled;
    assert Sane(s);
  }

  lemma RunOne(s: State, run: seq<Call>, k: nat)
    requires Sane(s) && AllTriangles(run) && k < |run|
    ensures AllTriangles(run[..k]) && AllTriangles(run[..k + 1])
    ensures RunFrom(s, run[..k + 1]) == ProcessQueue(RunFrom(s, run[..k]), run[k].completed, run[k].arrivals)
  {
    assert run[..k + 1][..k] == run[..k];
  }

  /** After this run the block of hash 7 in slot 31, an ordinary block, has lost its turn for good. */
  lemma OrdinaryBlockLost()
    ensures Sane(Init(1)) && AllTriangles(LosingRun()) && RangedCalls(LosingRun())
    ensures var s := RunFrom(Init(1), LosingRun());
            s.log.labels[31].hash == 7 && Lost(s, 31)
            && forall calls :: AllTriangles(calls) ==> Lost(RunFrom(s, calls), 31)
  {
    LosingRunIsPlain();
    Begins();
    hide Init, Filled, Running31, Running30, Lost, ProcessQueue, Sane, AllTriangles, Triangles, RangedCalls;
    var s := LosesAfterFive(Init(1), LosingRun());
    LostAlways(s);
  }

  lemma LostAlways(s: State)
    requires Sane(s) && Lost(s, 31)
    ensures forall calls :: AllTriangles(calls) ==> Lost(RunFrom(s, calls), 31)
  {
    forall calls | AllTriangles(calls) ensures Lost(RunFrom(s, calls), 31) {
      LostForGood(s, calls, 31);
    }
  }

  lemma LosingRunIsPlain()
    ensures AllTriangles(LosingRun()) && RangedCalls(LosingRun())
  {
    var a := LosingRun()[0].arrivals;
    assert Ranged(a[0]) && Ranged(a[1]);
  }

  lemma LosesAfterFive(first: State, run: seq<Call>) returns (s: State)
    requires Sane(first) && AllTriangles(run) && run == LosingRun() && Triangles(run[0].arrivals)
    requires Filled(ProcessQueue(first, {}, run[0].arrivals), 0)
    ensures s == RunFrom(first, run) && Sane(s) && s.log.labels[31].hash == 7 && Lost(s, 31)
  {
    hide Filled, Running31, Running30, Lost, ProcessQueue, Sane, AllTriangles, Triangles, Waits;
    assert |run| == 5 && run[..0] == [] && run[..5] == run;
    assert run[0].completed == {} && run[1] == Call({}, []) && run[2] == run[3] == run[4] == Call({0}, []);
    hide LosingRun, Sevens;
    var s1 := AfterOne(first, run, 0, first);
    var s2 := AfterOne(first, run, 1, s1);
    Fills(s1);
    var s3 := AfterOne(first, run, 2, s2);
    FirstStarts(s2);
    var s4 := AfterOne(first, run, 3, s3);
    SecondStarts(s3);
    s := AfterOne(first, run, 4, s4);
    ThirdStarts(s4);
  }

  lemma AfterOne(first: State, run: seq<Call>, k: nat, s: State) returns (r: State)
    requires Sane(first) && AllTriangles(run) && k < |run| && AllTriangles(run[..k]) && s == RunFrom(first, run[..k])
    ensures AllTriangles(run[..k + 1]) && Sane(s) && Triangles(run[k].arrivals)
    ensures r == RunFrom(first, run[..k + 1]) == ProcessQueue(s, run[k].completed, run[k].arrivals) && Sane(r)
  {
    RunOne(first, run, k);
    r := RunFrom(first, run[..k + 1]);
  }
}
