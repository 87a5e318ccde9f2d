/** process_queue as a function of the scheduler state, and the invariant of its runs. */
module Scheduler {
  import opened Sums
  import opened Masks
  import opened QueueState
  import opened HashChains
  import opened LineHeads
  import opened SerialOrder
  import opened TriangleRing

  // ---- process_queue ----

  /** A producing triangle has something left to produce. */
  ghost predicate Sane(s: State) {
    Shape(s) && forall t :: 0 <= t < TRIS && s.tris[t].produce ==> s.tris[t].jobs != []
  }

  /** A visible triangle has at least one block. */
  ghost predicate Triangles(arrivals: seq<seq<Job>>) {
    forall i :: 0 <= i < |arrivals| ==> arrivals[i] != []
  }

  /** An idle active slot takes the next ready block, if there is one. */
  function StartNext(s: State, i: nat): (r: State)
    requires Sane(s) && i < |s.active| && s.active[i] == EMPTY
    ensures Sane(r) && |r.active| == |s.active|
  {
    var b := Pick(s.ready, s.lastStarted);
    if b >= 0 then Start(s, i, b, false) else s
  }

  /** Active slot i, its DMA tag completed: run its block's handler, or start a block. A block
      that finishes hands the slot to its successor if it has one. */
  function Visit(s: State, i: nat): (r: State)
    requires Sane(s) && i < |s.active|
    ensures Sane(r) && |r.active| == |s.active|
  {
    if s.active[i] == EMPTY then StartNext(s, i)
    else
      var id := s.active[i];
      if s.blocks[id].stalls > 0 then Stall(s, i)
      else if s.chained[id] >= 0 then Start(Finish(s, i), i, s.chained[id], true)
      else StartNext(Finish(s, i), i)
  }

  function Scan(s: State, completed: set<nat>, i: nat): (r: State)
    requires Sane(s) && i <= |s.active|
    ensures Sane(r) && |r.active| == |s.active|
    decreases |s.active| - i
  {
    if i == |s.active| then s
    else Scan(if i in completed then Visit(s, i) else s, completed, i + 1)
  }

  function ProduceAll(s: State): (r: State)
    requires Sane(s)
    ensures Sane(r) && |r.active| == |s.active|
    decreases |s.free|
  {
    if s.free != {} && s.tris[s.nextRead].produce
    then TriangleRing.ProduceShape(s); ProduceAll(Produce(s))
    else s
  }

  /** The generator offers the triangles of `arrivals` in order, then none. */
  function GenerateAll(s: State, arrivals: seq<seq<Job>>): (r: State)
    requires Sane(s) && Triangles(arrivals)
    ensures Sane(r) && |r.active| == |s.active|
    decreases |arrivals|
  {
    if s.tris[s.nextWrite].count == 0 && arrivals != []
    then GenerateAll(Generate(s, arrivals[0]), arrivals[1..])
    else s
  }

  function ProcessQueue(s: State, completed: set<nat>, arrivals: seq<seq<Job>>): (r: State)
    requires Sane(s) && Triangles(arrivals)
    ensures Sane(r) && |r.active| == |s.active|
  {
    GenerateAll(ProduceAll(Scan(s, completed, 0)), arrivals)
  }

  // ---- the invariant of every run ----

  function View(s: State): Chains {
    Chains(s.free, s.log.labels, s.table, s.chained, s.log.lines)
  }

  /** No producer returns the hash 0xffff. */
  ghost predicate Hashes(jobs: seq<Job>) {
    forall j :: 0 <= j < |jobs| ==> 0 <= jobs[j].hash < EMPTY
  }

  ghost predicate Logged(s: State)
    requires Shape(s)
  {
    forall h :: 0 <= h < EMPTY ==> LogInv(View(s), s.active, s.log.made, s.log.events, h)
  }

  ghost predicate Pending(s: State)
    requires Shape(s)
  {
    forall t :: 0 <= t < TRIS ==> Hashes(s.tris[t].jobs)
  }

  /** What holds as long as no block with the hash 0xffff has been produced. */
  ghost predicate Core(s: State) {
    && Shape(s) && Represented(View(s)) && HeadsRun(View(s), s.ready, s.active)
    && Logged(s) && exists depth :: RingInv(s, depth)
  }

  ghost predicate SchedInv(s: State) {
    Core(s) && Pending(s)
  }

  lemma {:induction false} InvIsSane(s: State)
    requires SchedInv(s)
    ensures Sane(s)
  {
    CoreIsSane(s);
  }

  lemma {:induction false} CoreIsSane(s: State)
    requires Core(s)
    ensures Sane(s)
  {
    var depth :| RingInv(s, depth);
    forall t | 0 <= t < TRIS && s.tris[t].produce ensures s.tris[t].jobs != [] {
      assert Counted(s.tris[t], s.blocks, s.free, t);
    }
  }

  lemma {:induction false} InitInv(n: nat)
    requires 1 <= n <= MAX_ACTIVE
    ensures SchedInv(Init(n))
  {
    InitRing(n);
    InitChains(n);
    hide Represented, HeadsRun, RingInv, Shape;
    var c := View(Init(n));
    forall h | 0 <= h < EMPTY ensures LogInv(c, Init(n).active, [], [], h) {
      assert h !in c.lines;
    }
  }

  lemma {:induction false} InitChains(n: nat)
    requires 1 <= n <= MAX_ACTIVE
    ensures var s := Init(n);
            Represented(View(s)) && HeadsRun(View(s), s.ready, s.active)
  {
  }

  lemma {:induction false} InitRing(n: nat)
    requires 1 <= n <= MAX_ACTIVE
    ensures Shape(Init(n)) && RingInv(Init(n), 0)
  {
    var s := Init(n);
    forall t | 0 <= t < TRIS ensures Counted(s.tris[t], s.blocks, s.free, t) {
      SumZero(Refs(s.blocks, s.free, t));
    }
    SumZero(ActiveOnes(s.active));
  }

  lemma {:induction false} StallCore(s: State, i: nat)
    requires Core(s) && i < |s.active| && s.active[i] != EMPTY && s.blocks[s.active[i]].stalls > 0
    ensures Core(Stall(s, i))
  {
    var depth :| RingInv(s, depth);
    StallKeepsRing(s, i, depth);
    assert View(Stall(s, i)) == View(s);
    LoggedStays(s, Stall(s, i));
  }

  lemma {:induction false} LoggedStays(s: State, r: State)
    requires Shape(s) && Shape(r) && Logged(s) && View(r) == View(s) && r.active == s.active
    requires r.log.made == s.log.made && r.log.events == s.log.events
    ensures Logged(r)
  {
  }

  lemma {:induction false} StartCore(s: State, i: nat, b: nat, handed: bool)
    requires Core(s) && i < |s.active| && s.active[i] == EMPTY && b in s.ready
    ensures Core(Start(s, i, b, handed))
  {
    var depth :| RingInv(s, depth);
    StartKeepsRing(s, i, b, handed, depth);
    StartHeads(View(s), s.ready, s.active, i, b);
    StartLogged(s, i, b, handed);
    assert View(Start(s, i, b, handed)) == View(s);
  }

  lemma {:induction false} StartLogged(s: State, i: nat, b: nat, handed: bool)
    requires Shape(s) && Represented(View(s)) && HeadsRun(View(s), s.ready, s.active) && Logged(s)
    requires i < |s.active| && s.active[i] == EMPTY && b in s.ready
    ensures Shape(Start(s, i, b, handed)) && Logged(Start(s, i, b, handed))
  {
    var r := Start(s, i, b, handed);
    assert View(r) == View(s);
    forall h | 0 <= h < EMPTY ensures LogInv(View(r), r.active, r.log.made, r.log.events, h) {
      StartKeepsLog(View(s), s.ready, s.active, s.log.made, s.log.events, i, b, h);
    }
  }

  lemma {:induction false} FinishLines(s: State, i: nat)
    requires Shape(s) && Represented(View(s)) && HeadsRun(View(s), s.ready, s.active)
    requires i < |s.active| && s.active[i] != EMPTY
    ensures s.active[i] !in s.free && Shape(Finish(s, i)) && Represented(View(Finish(s, i)))
    ensures HeadsRun(View(Finish(s, i)), Finish(s, i).ready, Finish(s, i).active)
  {
    var c := View(s);
    assert Head(c, s.active[i]);
    HeadIsQueued(c, s.active[i]);
    PopRepresents(c, s.active[i]);
    PopHeads(c, s.ready, s.active, i);
    FinishPops(s, i);
    hide Represented, HeadsRun, Finish;
  }

  lemma {:induction false} FinishPops(s: State, i: nat)
    requires Shape(s) && i < |s.active| && s.active[i] != EMPTY
    ensures var id, r := s.active[i], Finish(s, i);
            && Shape(r) && View(r) == Pop(View(s), id) && r.active == s.active[i := EMPTY]
            && r.ready == if s.chained[id] >= 0 then s.ready + {s.chained[id]} else s.ready
  {
  }

  lemma {:induction false} FinishCore(s: State, i: nat)
    requires Core(s) && i < |s.active| && s.active[i] != EMPTY
    ensures Core(Finish(s, i))
    ensures s.chained[s.active[i]] >= 0 ==> s.chained[s.active[i]] in Finish(s, i).ready
  {
    hide Represented, HeadsRun, RingInv, Logged;
    FinishLines(s, i);
    FinishLogged(s, i);
    var depth :| RingInv(s, depth);
    FinishKeepsRing(s, i, depth);
  }

  lemma {:induction false} FinishLogged(s: State, i: nat)
    requires Shape(s) && Represented(View(s)) && HeadsRun(View(s), s.ready, s.active) && Logged(s)
    requires i < |s.active| && s.active[i] != EMPTY
    ensures Shape(Finish(s, i)) && Logged(Finish(s, i))
  {
    var r := Finish(s, i);
    assert View(r) == Pop(View(s), s.active[i]);
    forall h | 0 <= h < EMPTY ensures LogInv(View(r), r.active, r.log.made, r.log.events, h) {
      FinishKeepsLog(View(s), s.ready, s.active, s.log.made, s.log.events, i, s.active[i], h);
    }
  }

  lemma {:induction false} ProduceCore(s: State)
    requires Core(s) && s.free != {} && s.tris[s.nextRead].produce
    ensures s.tris[s.nextRead].jobs != []
    ensures 0 <= s.tris[s.nextRead].jobs[0].hash < EMPTY ==> Core(Produce(s))
  {
    var depth :| RingInv(s, depth);
    ProduceKeepsRing(s, depth);
    TriangleRing.ProduceShape(s);
    var idx := Pick(s.free, s.lastAdded);
    var h := s.tris[s.nextRead].jobs[0].hash;
    if 0 <= h < EMPTY {
      assert View(Produce(s)) == Push(View(s), h, idx, |s.log.made|);
      PushRepresents(View(s), h, idx, |s.log.made|);
      PushHeads(View(s), s.ready, s.active, h, idx, |s.log.made|);
      ProduceLogged(s);
    }
  }

  lemma {:induction false} ProducePending(s: State)
    requires Shape(s) && Pending(s) && s.free != {} && s.tris[s.nextRead].jobs != []
    ensures Shape(Produce(s)) && Pending(Produce(s))
  {
    TriangleRing.ProduceShape(s);
    assert Hashes(s.tris[s.nextRead].jobs);
  }

  lemma {:induction false} ProduceLogged(s: State)
    requires Shape(s) && Represented(View(s)) && HeadsRun(View(s), s.ready, s.active) && Logged(s)
    requires s.free != {} && s.tris[s.nextRead].jobs != [] && 0 <= s.tris[s.nextRead].jobs[0].hash < EMPTY
    ensures Shape(Produce(s)) && Logged(Produce(s))
  {
    TriangleRing.ProduceShape(s);
    var idx := Pick(s.free, s.lastAdded);
    var r := Produce(s);
    var job := s.tris[s.nextRead].jobs[0];
    assert View(r) == Push(View(s), job.hash, idx, |s.log.made|);
    forall h | 0 <= h < EMPTY ensures LogInv(View(r), r.active, r.log.made, r.log.events, h) {
      ProduceKeepsLog(View(s), s.ready, s.active, s.log.made, s.log.events, job, idx, h);
    }
  }

  lemma {:induction false} GenerateCore(s: State, jobs: seq<Job>)
    requires Core(s) && s.tris[s.nextWrite].count == 0 && jobs != []
    ensures Core(Generate(s, jobs))
  {
    var depth :| RingInv(s, depth);
    GenerateKeepsRing(s, jobs, depth);
    assert View(Generate(s, jobs)) == View(s);
    LoggedStays(s, Generate(s, jobs));
  }

  // ---- with no 0xffff ahead ----

  lemma {:induction false} StallInv(s: State, i: nat)
    requires SchedInv(s) && i < |s.active| && s.active[i] != EMPTY && s.blocks[s.active[i]].stalls > 0
    ensures SchedInv(Stall(s, i))
  {
    hide Represented, HeadsRun, Logged, RingInv;
    StallCore(s, i);
  }

  lemma {:induction false} StartInv(s: State, i: nat, b: nat, handed: bool)
    requires SchedInv(s) && i < |s.active| && s.active[i] == EMPTY && b in s.ready
    ensures SchedInv(Start(s, i, b, handed))
  {
    hide Represented, HeadsRun, Logged, RingInv;
    StartCore(s, i, b, handed);
  }

  lemma {:induction false} FinishInv(s: State, i: nat)
    requires SchedInv(s) && i < |s.active| && s.active[i] != EMPTY
    ensures SchedInv(Finish(s, i))
    ensures s.chained[s.active[i]] >= 0 ==> s.chained[s.active[i]] in Finish(s, i).ready
  {
    hide Represented, HeadsRun, Logged, RingInv;
    FinishCore(s, i);
  }

  lemma {:induction false} ProduceInv(s: State)
    requires SchedInv(s) && s.free != {} && s.tris[s.nextRead].produce
    ensures s.tris[s.nextRead].jobs != [] && SchedInv(Produce(s))
  {
    hide Represented, HeadsRun, Logged, RingInv;
    ProduceCore(s);
    assert Hashes(s.tris[s.nextRead].jobs);
    ProducePending(s);
  }

  lemma {:induction false} GenerateInv(s: State, jobs: seq<Job>)
    requires SchedInv(s) && s.tris[s.nextWrite].count == 0 && jobs != [] && Hashes(jobs)
    ensures SchedInv(Generate(s, jobs))
  {
    hide Represented, HeadsRun, Logged, RingInv;
    GenerateCore(s, jobs);
  }
}
