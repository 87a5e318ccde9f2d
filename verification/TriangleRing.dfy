/** The triangle ring: reference counts, the segment of producing triangles, and what `busy`
    counts. */
module TriangleRing {
  import opened Sums
  import opened Masks
  import opened QueueState

  /** One for every queued block that refers to triangle t. */
  function Refs(blocks: seq<Block>, free: set<nat>, t: nat): seq<nat>
    requires |blocks| == SLOTS
  {
    seq(SLOTS, b requires 0 <= b < SLOTS => if b !in free && blocks[b].tri == t then 1 else 0)
  }

  /** A triangle's count: one while it is producing, and one per unfinished block. */
  ghost predicate Counted(tri: Tri, blocks: seq<Block>, free: set<nat>, t: nat)
    requires |blocks| == SLOTS
  {
    && tri.count == (if tri.produce then 1 else 0) + Sum(Refs(blocks, free, t))
    && (tri.produce <==> tri.jobs != [])
  }

  /** How far slot t lies ahead of `read` on the ring. */
  function Ahead(read: nat, t: nat): nat
    requires read < TRIS && t < TRIS
  {
    if t >= read then t - read else t + TRIS - read
  }

  /** Exactly the `depth` slots from `read` up to `write` are producing. */
  ghost predicate Segment(tris: seq<Tri>, read: nat, write: nat, depth: nat)
    requires |tris| == TRIS && read < TRIS && write < TRIS
  {
    && depth <= TRIS && (Ahead(read, write) == depth || (depth == TRIS && write == read))
    && forall t :: 0 <= t < TRIS ==> (tris[t].produce <==> Ahead(read, t) < depth)
  }

  /** The jobs still to be produced by `depth` slots from `read` on, in ring order. */
  function RingJobs(tris: seq<Tri>, read: nat, depth: nat): seq<Job>
    requires |tris| == TRIS && read < TRIS
    decreases depth
  {
    if depth == 0 then [] else tris[read].jobs + RingJobs(tris, (read + 1) % TRIS, depth - 1)
  }

  function ActiveOnes(active: seq<int>): seq<nat> {
    seq(|active|, i requires 0 <= i < |active| => if active[i] != EMPTY then 1 else 0)
  }

  ghost predicate RingInv(s: State, depth: nat)
    requires Shape(s)
  {
    && (forall t :: 0 <= t < TRIS ==> Counted(s.tris[t], s.blocks, s.free, t))
    && Segment(s.tris, s.nextRead, s.nextWrite, depth)
    && s.busy == Sum(ActiveOnes(s.active)) + depth
    && s.log.made + RingJobs(s.tris, s.nextRead, depth) == s.log.generated
  }

  // ---- small facts ----

  lemma {:induction false} ActivePut(active: seq<int>, i: nat, v: int)
    requires i < |active|
    ensures Sum(ActiveOnes(active[i := v])) + (if active[i] != EMPTY then 1 else 0)
         == Sum(ActiveOnes(active)) + (if v != EMPTY then 1 else 0)
  {
    SumChange(ActiveOnes(active), ActiveOnes(active[i := v]), i);
  }

  lemma {:induction false} RefsChange(blocks: seq<Block>, free: set<nat>, blocks': seq<Block>, free': set<nat>, b: nat, t: nat)
    requires |blocks| == |blocks'| == SLOTS && b < SLOTS
    requires forall c :: 0 <= c < SLOTS && c != b ==>
               blocks[c].tri == blocks'[c].tri && (c in free <==> c in free')
    ensures Sum(Refs(blocks', free', t)) + Refs(blocks, free, t)[b]
         == Sum(Refs(blocks, free, t)) + Refs(blocks', free', t)[b]
  {
    SumChange(Refs(blocks, free, t), Refs(blocks', free', t), b);
  }

  /** Slots outside the segment do not matter to what it still has to produce. */
  lemma {:induction false} RingJobsSame(tris: seq<Tri>, tris': seq<Tri>, read: nat, depth: nat)
    requires |tris| == |tris'| == TRIS && read < TRIS && depth <= TRIS
    requires forall t :: 0 <= t < TRIS && Ahead(read, t) < depth ==> tris[t].jobs == tris'[t].jobs
    ensures RingJobs(tris, read, depth) == RingJobs(tris', read, depth)
    decreases depth
  {
    if depth > 0 {
      var next := (read + 1) % TRIS;
      assert Ahead(read, read) == 0;
      forall t | 0 <= t < TRIS && Ahead(next, t) < depth - 1 ensures tris[t].jobs == tris'[t].jobs {
        assert Ahead(read, t) < depth;
      }
      RingJobsSame(tris, tris', next, depth - 1);
    }
  }

  /** A segment grows at its far end. */
  lemma {:induction false} RingJobsGrow(tris: seq<Tri>, read: nat, depth: nat)
    requires |tris| == TRIS && read < TRIS && depth < TRIS
    ensures RingJobs(tris, read, depth + 1) == RingJobs(tris, read, depth) + tris[(read + depth) % TRIS].jobs
    decreases depth
  {
    var next := (read + 1) % TRIS;
    if depth == 0 {
      assert RingJobs(tris, next, 0) == [];
    } else {
      RingJobsGrow(tris, next, depth - 1);
      RoundTheRing(read, depth);
      var last := (read + depth) % TRIS;
      var tail := RingJobs(tris, next, depth - 1);
      assert RingJobs(tris, next, depth) == tail + tris[last].jobs;
      assert tris[read].jobs + (tail + tris[last].jobs) == (tris[read].jobs + tail) + tris[last].jobs;
    }
  }

  lemma RoundTheRing(read: nat, depth: nat)
    requires read < TRIS && 0 < depth < TRIS
    ensures ((read + 1) % TRIS + (depth - 1)) % TRIS == (read + depth) % TRIS
  {
  }

  // ---- the steps keep the ring invariant ----

  lemma {:induction false} StallKeepsRing(s: State, i: nat, depth: nat)
    requires Shape(s) && RingInv(s, depth) && i < |s.active| && s.active[i] != EMPTY
    requires s.blocks[s.active[i]].stalls > 0
    ensures Shape(Stall(s, i)) && RingInv(Stall(s, i), depth)
  {
    var r := Stall(s, i);
    forall t | 0 <= t < TRIS ensures Counted(r.tris[t], r.blocks, r.free, t) {
      assert Counted(s.tris[t], s.blocks, s.free, t);
      assert Refs(r.blocks, r.free, t) == Refs(s.blocks, s.free, t);
    }
  }

  lemma {:induction false} StartKeepsRing(s: State, i: nat, b: nat, handed: bool, depth: nat)
    requires Shape(s) && RingInv(s, depth) && i < |s.active| && s.active[i] == EMPTY && b < SLOTS
    ensures Shape(Start(s, i, b, handed)) && RingInv(Start(s, i, b, handed), depth)
  {
    ActivePut(s.active, i, b);
  }

  lemma {:induction false} FinishCounts(s: State, i: nat, t: nat)
    requires Shape(s) && i < |s.active| && s.active[i] != EMPTY && s.active[i] !in s.free && t < TRIS
    requires Counted(s.tris[t], s.blocks, s.free, t)
    ensures Counted(Finish(s, i).tris[t], Finish(s, i).blocks, Finish(s, i).free, t)
  {
    var r := Finish(s, i);
    RefsChange(s.blocks, s.free, r.blocks, r.free, s.active[i], t);
  }

  lemma {:induction false} FinishKeepsRing(s: State, i: nat, depth: nat)
    requires Shape(s) && RingInv(s, depth) && i < |s.active| && s.active[i] != EMPTY && s.active[i] !in s.free
    ensures Shape(Finish(s, i)) && RingInv(Finish(s, i), depth)
  {
    var r := Finish(s, i);
    FinishFrame(s, i);
    forall t | 0 <= t < TRIS ensures Counted(r.tris[t], r.blocks, r.free, t) {
      FinishCounts(s, i, t);
    }
    ActivePut(s.active, i, EMPTY);
    RingJobsSame(s.tris, r.tris, s.nextRead, depth);
    hide Counted, RingJobs, Refs, Sum, ActiveOnes, Finish, Shape;
  }

  lemma {:induction false} FinishFrame(s: State, i: nat)
    requires Shape(s) && i < |s.active| && s.active[i] != EMPTY
    ensures var r := Finish(s, i);
            && Shape(r) && r.active == s.active[i := EMPTY] && r.busy == s.busy - 1
            && r.nextRead == s.nextRead && r.nextWrite == s.nextWrite
            && r.log.made == s.log.made && r.log.generated == s.log.generated
            && forall t :: 0 <= t < TRIS ==> r.tris[t].jobs == s.tris[t].jobs && r.tris[t].produce == s.tris[t].produce
  {
  }

  lemma {:induction false} ProduceShape(s: State)
    requires Shape(s) && s.free != {} && s.tris[s.nextRead].jobs != []
    ensures 0 <= Pick(s.free, s.lastAdded) < SLOTS && Pick(s.free, s.lastAdded) in s.free
    ensures Shape(Produce(s))
  {
    var b :| b in s.free;
    assert b < SLOTS;
  }

  lemma {:induction false} ProduceCounts(s: State, t: nat)
    requires Shape(s) && s.free != {} && s.tris[s.nextRead].jobs != [] && t < TRIS
    requires Counted(s.tris[t], s.blocks, s.free, t)
    ensures Shape(Produce(s)) && Counted(Produce(s).tris[t], Produce(s).blocks, Produce(s).free, t)
  {
    ProduceShape(s);
    var r := Produce(s);
    RefsChange(s.blocks, s.free, r.blocks, r.free, Pick(s.free, s.lastAdded), t);
  }

  lemma {:induction false} ProduceSegment(s: State, depth: nat)
    requires Shape(s) && s.free != {} && s.tris[s.nextRead].jobs != [] && s.tris[s.nextRead].produce
    requires Segment(s.tris, s.nextRead, s.nextWrite, depth)
    ensures depth > 0 && Shape(Produce(s))
    ensures var last := |s.tris[s.nextRead].jobs| == 1;
            Segment(Produce(s).tris, Produce(s).nextRead, Produce(s).nextWrite, if last then depth - 1 else depth)
  {
    ProduceShape(s);
    var r := Produce(s);
    assert Ahead(s.nextRead, s.nextRead) == 0;
    var last := |s.tris[s.nextRead].jobs| == 1;
    if last {
      forall t | 0 <= t < TRIS ensures r.tris[t].produce <==> Ahead(r.nextRead, t) < depth - 1 { }
    }
  }

  /** Producing takes the next job from the front of what the ring has left. */
  lemma {:induction false} TakeJob(tris: seq<Tri>, read: nat, depth: nat, x: Tri)
    requires |tris| == TRIS && read < TRIS && 0 < depth <= TRIS
    requires tris[read].jobs != [] && x.jobs == tris[read].jobs[1..]
    ensures RingJobs(tris, read, depth) == [tris[read].jobs[0]] +
            if x.jobs == [] then RingJobs(tris[read := x], (read + 1) % TRIS, depth - 1)
            else RingJobs(tris[read := x], read, depth)
  {
    var next := (read + 1) % TRIS;
    var tail := RingJobs(tris, next, depth - 1);
    RestOfRing(tris, read, depth, x);
    assert RingJobs(tris, read, depth) == tris[read].jobs + tail;
    assert tris[read].jobs + tail == [tris[read].jobs[0]] + (x.jobs + tail);
    if x.jobs == [] {
      assert x.jobs + tail == tail;
    } else {
      assert RingJobs(tris[read := x], read, depth) == x.jobs + tail;
    }
  }

  lemma {:induction false} RestOfRing(tris: seq<Tri>, read: nat, depth: nat, x: Tri)
    requires |tris| == TRIS && read < TRIS && 0 < depth <= TRIS
    ensures RingJobs(tris[read := x], (read + 1) % TRIS, depth - 1) == RingJobs(tris, (read + 1) % TRIS, depth - 1)
  {
    var next := (read + 1) % TRIS;
    forall t | 0 <= t < TRIS && Ahead(next, t) < depth - 1 ensures t != read { }
    RingJobsSame(tris, tris[read := x], next, depth - 1);
  }

  lemma {:induction false} ProduceLog(s: State, depth: nat)
    requires Shape(s) && s.free != {} && s.tris[s.nextRead].jobs != [] && 0 < depth <= TRIS
    requires s.log.made + RingJobs(s.tris, s.nextRead, depth) == s.log.generated
    ensures Shape(Produce(s))
    ensures var r := Produce(s);
            r.log.made + RingJobs(r.tris, r.nextRead, if |s.tris[s.nextRead].jobs| == 1 then depth - 1 else depth)
            == r.log.generated
  {
    ProduceShape(s);
    ProduceTakes(s);
    hide RingJobs, Produce, Shape;
    var r, jobs := Produce(s), s.tris[s.nextRead].jobs;
    TakeJob(s.tris, s.nextRead, depth, r.tris[s.nextRead]);
    assert r.tris[s.nextRead].jobs == [] <==> |jobs| == 1;
    Regroup(s.log.made, [jobs[0]], RingJobs(r.tris, r.nextRead, if |jobs| == 1 then depth - 1 else depth));
  }

  lemma {:induction false} ProduceTakes(s: State)
    requires Shape(s) && s.free != {} && s.tris[s.nextRead].jobs != []
    ensures var r, jobs := Produce(s), s.tris[s.nextRead].jobs;
            && |r.tris| == TRIS && r.tris == s.tris[s.nextRead := r.tris[s.nextRead]] && r.tris[s.nextRead].jobs == jobs[1..]
            && r.nextRead == (if |jobs| == 1 then (s.nextRead + 1) % TRIS else s.nextRead)
            && r.log.made == s.log.made + [jobs[0]] && r.log.generated == s.log.generated
  {
    hide Pick, LowestMatch, ChainTable, Enqueue;
  }

  lemma {:induction false} ProduceKeepsRing(s: State, depth: nat)
    requires Shape(s) && RingInv(s, depth) && s.free != {} && s.tris[s.nextRead].produce
    ensures s.tris[s.nextRead].jobs != [] && depth > 0 && Shape(Produce(s))
    ensures RingInv(Produce(s), if |s.tris[s.nextRead].jobs| == 1 then depth - 1 else depth)
  {
    assert Counted(s.tris[s.nextRead], s.blocks, s.free, s.nextRead);
    ProduceSegment(s, depth);
    ProduceLog(s, depth);
    ProduceCountsAll(s);
  }

  lemma {:induction false} ProduceCountsAll(s: State)
    requires Shape(s) && s.free != {} && s.tris[s.nextRead].jobs != []
    requires forall t :: 0 <= t < TRIS ==> Counted(s.tris[t], s.blocks, s.free, t)
    ensures Shape(Produce(s))
    ensures forall t :: 0 <= t < TRIS ==> Counted(Produce(s).tris[t], Produce(s).blocks, Produce(s).free, t)
  {
    ProduceShape(s);
    forall t | 0 <= t < TRIS ensures Counted(Produce(s).tris[t], Produce(s).blocks, Produce(s).free, t) {
      ProduceCounts(s, t);
    }
  }

  /** A slot whose count is zero is neither producing nor referred to by any block. */
  lemma {:induction false} ZeroCountIsUnused(s: State, depth: nat, t: nat, b: nat)
    requires Shape(s) && RingInv(s, depth) && t < TRIS && s.tris[t].count == 0
    requires b < SLOTS && b !in s.free
    ensures !s.tris[t].produce && s.blocks[b].tri != t
  {
    assert Counted(s.tris[t], s.blocks, s.free, t);
    SumZero(Refs(s.blocks, s.free, t));
    assert Refs(s.blocks, s.free, t)[b] == 0;
  }

  lemma {:induction false} GenerateCounts(s: State, jobs: seq<Job>, t: nat)
    requires Shape(s) && jobs != [] && t < TRIS && s.tris[s.nextWrite].count == 0
    requires Counted(s.tris[t], s.blocks, s.free, t)
    ensures Counted(Generate(s, jobs).tris[t], Generate(s, jobs).blocks, Generate(s, jobs).free, t)
  {
  }

  lemma {:induction false} GenerateCountsAll(s: State, jobs: seq<Job>)
    requires Shape(s) && jobs != [] && s.tris[s.nextWrite].count == 0
    requires forall t :: 0 <= t < TRIS ==> Counted(s.tris[t], s.blocks, s.free, t)
    ensures forall t :: 0 <= t < TRIS ==>
              Counted(Generate(s, jobs).tris[t], Generate(s, jobs).blocks, Generate(s, jobs).free, t)
  {
    forall t | 0 <= t < TRIS
      ensures Counted(Generate(s, jobs).tris[t], Generate(s, jobs).blocks, Generate(s, jobs).free, t)
    {
      GenerateCounts(s, jobs, t);
    }
  }

  /** The slot to write to is free only when the ring has room, and it is then its next. */
  lemma {:induction false} WriteSlot(tris: seq<Tri>, read: nat, write: nat, depth: nat)
    requires |tris| == TRIS && read < TRIS && write < TRIS && Segment(tris, read, write, depth)
    requires !tris[write].produce
    ensures depth < TRIS && Ahead(read, write) == depth && write == (read + depth) % TRIS
  {
  }

  lemma {:induction false} GenerateSegment(tris: seq<Tri>, read: nat, write: nat, depth: nat, x: Tri)
    requires |tris| == TRIS && read < TRIS && write < TRIS && Segment(tris, read, write, depth)
    requires !tris[write].produce && x.produce
    ensures Segment(tris[write := x], read, (write + 1) % TRIS, depth + 1)
  {
    WriteSlot(tris, read, write, depth);
  }

  lemma {:induction false} GenerateJobs(tris: seq<Tri>, read: nat, write: nat, depth: nat, x: Tri)
    requires |tris| == TRIS && read < TRIS && write < TRIS && Segment(tris, read, write, depth)
    requires !tris[write].produce
    ensures RingJobs(tris[write := x], read, depth + 1) == RingJobs(tris, read, depth) + x.jobs
  {
    WriteSlot(tris, read, write, depth);
    RingJobsGrow(tris[write := x], read, depth);
    RingJobsSame(tris, tris[write := x], read, depth);
  }

  lemma {:induction false} GenerateLog(s: State, jobs: seq<Job>, depth: nat)
    requires Shape(s) && jobs != [] && Segment(s.tris, s.nextRead, s.nextWrite, depth)
    requires !s.tris[s.nextWrite].produce
    requires s.log.made + RingJobs(s.tris, s.nextRead, depth) == s.log.generated
    ensures var r := Generate(s, jobs);
            r.log.made + RingJobs(r.tris, r.nextRead, depth + 1) == r.log.generated
  {
    GenerateJobs(s.tris, s.nextRead, s.nextWrite, depth, Tri(1, true, jobs));
    Regroup(s.log.made, RingJobs(s.tris, s.nextRead, depth), jobs);
  }

  lemma {:induction false} Regroup(a: seq<Job>, b: seq<Job>, c: seq<Job>)
    ensures a + (b + c) == (a + b) + c
  {
  }

  lemma {:induction false} NotProducing(s: State)
    requires Shape(s) && Counted(s.tris[s.nextWrite], s.blocks, s.free, s.nextWrite) && s.tris[s.nextWrite].count == 0
    ensures !s.tris[s.nextWrite].produce && s.tris[s.nextWrite].jobs == []
  {
  }

  lemma {:induction false} GenerateShape(s: State, jobs: seq<Job>)
    requires Shape(s)
    ensures Shape(Generate(s, jobs))
  {
  }

  lemma {:induction false} GenerateKeepsRing(s: State, jobs: seq<Job>, depth: nat)
    requires Shape(s) && RingInv(s, depth) && jobs != [] && s.tris[s.nextWrite].count == 0
    ensures depth < TRIS && Shape(Generate(s, jobs)) && RingInv(Generate(s, jobs), depth + 1)
  {
    NotProducing(s);
    GenerateShape(s, jobs);
    hide Counted, Segment, RingJobs, Refs, Sum, ActiveOnes, Shape;
    WriteSlot(s.tris, s.nextRead, s.nextWrite, depth);
    GenerateSegment(s.tris, s.nextRead, s.nextWrite, depth, Tri(1, true, jobs));
    GenerateLog(s, jobs, depth);
    GenerateCountsAll(s, jobs);
  }
}
