/** What holds of every run of process_queue: order and mutual exclusion per hash, the states
    of the 32 slots, the shape of the chains, reference counts. */
module SchedulerRuns {
  import opened Sums
  import opened Masks
  import opened QueueState
  import opened HashChains
  import opened LineHeads
  import opened SerialOrder
  import opened TriangleRing
  import opened Scheduler

  // ---- process_queue keeps the invariant ----

  lemma {:induction false} StartNextInv(s: State, i: nat)
    requires SchedInv(s) && Sane(s) && i < |s.active| && s.active[i] == EMPTY
    ensures SchedInv(StartNext(s, i))
  {
    hide SchedInv;
    if Pick(s.ready, s.lastStarted) >= 0 {
      StartInv(s, i, Pick(s.ready, s.lastStarted), false);
    }
  }

  lemma {:induction false} VisitInv(s: State, i: nat)
    requires SchedInv(s) && Sane(s) && i < |s.active|
    ensures SchedInv(Visit(s, i))
  {
    hide SchedInv;
    if s.active[i] == EMPTY {
      StartNextInv(s, i);
    } else if s.blocks[s.active[i]].stalls > 0 {
      StallInv(s, i);
    } else {
      FinishInv(s, i);
      if s.chained[s.active[i]] >= 0 {
        StartInv(Finish(s, i), i, s.chained[s.active[i]], true);
      } else {
        StartNextInv(Finish(s, i), i);
      }
    }
  }

  lemma {:induction false} ScanInv(s: State, completed: set<nat>, i: nat)
    requires SchedInv(s) && Sane(s) && i <= |s.active|
    ensures SchedInv(Scan(s, completed, i))
    decreases |s.active| - i
  {
    hide SchedInv, Visit;
    if i < |s.active| {
      if i in completed {
        VisitInv(s, i);
      }
      ScanInv(if i in completed then Visit(s, i) else s, completed, i + 1);
    }
  }

  lemma {:induction false} ProduceAllInv(s: State)
    requires SchedInv(s) && Sane(s)
    ensures SchedInv(ProduceAll(s))
    decreases |s.free|
  {
    hide SchedInv;
    if s.free != {} && s.tris[s.nextRead].produce {
      TriangleRing.ProduceShape(s);
      ProduceInv(s);
      ProduceAllInv(Produce(s));
    }
  }

  lemma ProducedIsSane(s: State)
    requires Sane(s) && s.free != {} && s.tris[s.nextRead].produce
    ensures Sane(Produce(s)) && |Produce(s).free| < |s.free| && |Produce(s).active| == |s.active|
  {
    TriangleRing.ProduceShape(s);
  }

  /** The triangles a generator offers: visible, and none of their hashes is 0xffff. */
  ghost predicate Offers(arrivals: seq<seq<Job>>) {
    forall i :: 0 <= i < |arrivals| ==> arrivals[i] != [] && Hashes(arrivals[i])
  }

  lemma {:induction false} GenerateAllInv(s: State, arrivals: seq<seq<Job>>)
    requires SchedInv(s) && Sane(s) && Offers(arrivals)
    ensures SchedInv(GenerateAll(s, arrivals))
    decreases |arrivals|
  {
    hide SchedInv;
    if s.tris[s.nextWrite].count == 0 && arrivals != [] {
      GenerateInv(s, arrivals[0]);
      GenerateAllInv(Generate(s, arrivals[0]), arrivals[1..]);
    }
  }

  lemma {:induction false} ProcessQueueInv(s: State, completed: set<nat>, arrivals: seq<seq<Job>>)
    requires SchedInv(s) && Offers(arrivals)
    ensures Sane(s) && SchedInv(ProcessQueue(s, completed, arrivals))
  {
    hide SchedInv;
    InvIsSane(s);
    ScanInv(s, completed, 0);
    ProduceAllInv(Scan(s, completed, 0));
    GenerateAllInv(ProduceAll(Scan(s, completed, 0)), arrivals);
  }

  // ---- runs ----

  /** One call of process_queue: the tags found completed and the triangles on offer. */
  datatype Call = Call(completed: set<nat>, arrivals: seq<seq<Job>>)

  ghost predicate Calls(calls: seq<Call>) {
    forall k :: 0 <= k < |calls| ==> Offers(calls[k].arrivals)
  }

  /** The state after a run from init_queue with n active slots. */
  ghost function Reach(n: nat, calls: seq<Call>): (s: State)
    requires 1 <= n <= MAX_ACTIVE && Calls(calls)
    ensures SchedInv(s)
  {
    if calls == [] then InitInv(n); Init(n)
    else
      var last := calls[|calls| - 1];
      var before := Reach(n, calls[..|calls| - 1]);
      ProcessQueueInv(before, last.completed, last.arrivals);
      ProcessQueue(before, last.completed, last.arrivals)
  }

  /** In every run, the starts and finishes of the blocks of one hash are a prefix of running
      these blocks one at a time in production order: they finish in production order, none
      twice, and no two of them are active at once. */
  lemma {:induction false} BlocksOfAHashAreSerialised(n: nat, calls: seq<Call>, h: int)
    requires 1 <= n <= MAX_ACTIVE && Calls(calls) && 0 <= h < EMPTY
    ensures var s := Reach(n, calls);
            && EventsOf(s.log.events, h) <= OneByOne(h, SerialsOf(s.log.made, h))
            && forall i, j :: 0 <= i < j < |s.active| && s.active[i] != EMPTY && s.active[j] != EMPTY ==>
                 && 0 <= s.active[i] < SLOTS && 0 <= s.active[j] < SLOTS
                 && s.log.labels[s.active[i]].hash != s.log.labels[s.active[j]].hash
  {
    var s := Reach(n, calls);
    forall i, j | 0 <= i < j < |s.active| && s.active[i] != EMPTY && s.active[j] != EMPTY
      ensures s.log.labels[s.active[i]].hash != s.log.labels[s.active[j]].hash
    {
      OneActivePerHash(View(s), s.ready, s.active, i, j);
    }
    assert LogInv(View(s), s.active, s.log.made, s.log.events, h);
    EventsArePrefix(View(s), s.active, s.log.made, s.log.events, h);
  }

  /** Production order is triangle order: what was produced is a prefix of the jobs of the
      generated triangles. */
  lemma {:induction false} ProductionFollowsTheRing(n: nat, calls: seq<Call>)
    requires 1 <= n <= MAX_ACTIVE && Calls(calls)
    ensures Reach(n, calls).log.made <= Reach(n, calls).log.generated
  {
    var s := Reach(n, calls);
    var depth :| RingInv(s, depth);
  }

  ghost predicate Waiting(s: State, b: nat)
    requires Shape(s)
  {
    b < SLOTS && b !in s.free && b !in s.ready && b !in s.active
  }

  /** Every slot is in exactly one of the four states, and an active one is so once. */
  lemma {:induction false} SlotStates(n: nat, calls: seq<Call>, b: nat)
    requires 1 <= n <= MAX_ACTIVE && Calls(calls) && b < SLOTS
    ensures var s := Reach(n, calls);
            && (if b in s.free then 1 else 0) + (if b in s.ready then 1 else 0)
             + (if b in s.active then 1 else 0) + (if Waiting(s, b) then 1 else 0) == 1
            && (forall i, j :: 0 <= i < j < |s.active| && s.active[i] == b ==> s.active[j] != b)
  {
    var s := Reach(n, calls);
    if b in s.ready || b in s.active {
      assert Head(View(s), b);
      HeadIsQueued(View(s), b);
    }
  }

  // ---- the chains ----

  lemma {:induction false} SerialsIncrease(made: seq<Job>, h: int)
    ensures forall i :: 0 <= i < |SerialsOf(made, h)| ==> SerialsOf(made, h)[i] < |made|
    ensures forall i, j :: 0 <= i < j < |SerialsOf(made, h)| ==> SerialsOf(made, h)[i] < SerialsOf(made, h)[j]
  {
    if made != [] {
      SerialsIncrease(made[..|made| - 1], h);
    }
  }

  /** A line holds its blocks in production order. */
  lemma {:induction false} LineIsOrdered(s: State, h: int, i: nat, j: nat)
    requires SchedInv(s) && h in s.log.lines && i < j < |s.log.lines[h]|
    ensures s.log.lines[h][i] < SLOTS && s.log.lines[h][j] < SLOTS
    ensures s.log.labels[s.log.lines[h][i]].serial < s.log.labels[s.log.lines[h][j]].serial
  {
    hide HeadsRun, RingInv, Pending;
    assert Line(View(s), h, s.log.lines[h]);
    assert LogInv(View(s), s.active, s.log.made, s.log.events, h);
    var done := FinishedOf(s.log.events, h);
    var line := LineSerials(View(s), h);
    SerialsIncrease(s.log.made, h);
    assert (done + line)[|done| + i] == line[i] && (done + line)[|done| + j] == line[j];
  }

  /** A chained slot is followed by the next block of the same hash. */
  lemma {:induction false} ChainStep(s: State, a: nat) returns (h: int, k: nat)
    requires Core(s) && a < SLOTS && s.chained[a] >= 0
    ensures h in s.log.lines && k + 1 < |s.log.lines[h]| && h == s.log.labels[a].hash
    ensures s.log.lines[h][k] == a && s.log.lines[h][k + 1] == s.chained[a]
  {
    hide HeadsRun, RingInv, Pending, Logged;
    var c := View(s);
    assert !Blank(c, a) && Queued(c, a);
    h := s.log.labels[a].hash;
    assert Line(c, h, c.lines[h]);
    k :| 0 <= k < |c.lines[h]| && c.lines[h][k] == a;
  }

  /** chained_block never loops: it always leads to a younger block of the same hash. */
  lemma {:induction false} ChainsAreAcyclic(n: nat, calls: seq<Call>, a: nat)
    requires 1 <= n <= MAX_ACTIVE && Calls(calls) && a < SLOTS
    ensures var s := Reach(n, calls);
            s.chained[a] >= 0 ==>
              && s.chained[a] < SLOTS
              && s.log.labels[s.chained[a]].hash == s.log.labels[a].hash
              && s.log.labels[s.chained[a]].serial > s.log.labels[a].serial
  {
    var s := Reach(n, calls);
    if s.chained[a] >= 0 {
      var h, k := ChainStep(s, a);
      LineIsOrdered(s, h, k, k + 1);
      assert Line(View(s), h, s.log.lines[h]);
    }
  }

  /** No two slots chain to the same one. */
  lemma {:induction false} ChainsAreInjective(n: nat, calls: seq<Call>, a: nat, b: nat)
    requires 1 <= n <= MAX_ACTIVE && Calls(calls) && a < SLOTS && b < SLOTS
    ensures Reach(n, calls).chained[a] == Reach(n, calls).chained[b] >= 0 ==> a == b
  {
    var s := Reach(n, calls);
    if s.chained[a] == s.chained[b] >= 0 {
      var g, i := ChainStep(s, a);
      var h, j := ChainStep(s, b);
      assert Line(View(s), g, s.log.lines[g]) && Line(View(s), h, s.log.lines[h]);
    }
  }

  /** The slots that something chains to are exactly the waiting ones. */
  lemma {:induction false} ChainTargetsWait(n: nat, calls: seq<Call>, b: nat)
    requires 1 <= n <= MAX_ACTIVE && Calls(calls) && b < SLOTS
    ensures Waiting(Reach(n, calls), b) <==> exists a: nat :: a < SLOTS && Reach(n, calls).chained[a] == b
  {
    var s := Reach(n, calls);
    var c := View(s);
    if Waiting(s, b) {
      assert Queued(c, b) && !Head(c, b);
      var q := c.lines[c.labels[b].hash];
      assert Line(c, c.labels[b].hash, q);
      var k :| 0 <= k < |q| && q[k] == b;
      assert c.chained[q[k - 1]] == q[k];
    }
    if a: nat :| a < SLOTS && s.chained[a] == b {
      var h, k := ChainStep(s, a);
      assert Line(c, h, c.lines[h]);
      assert !Head(c, b);
    }
  }

  /** Slot b holds the youngest unfinished block of hash h. */
  ghost predicate Youngest(s: State, h: int, b: nat)
    requires Shape(s) && b < SLOTS
  {
    && b !in s.free && s.log.labels[b].hash == h
    && forall a :: 0 <= a < SLOTS && a !in s.free && s.log.labels[a].hash == h ==>
         s.log.labels[a].serial <= s.log.labels[b].serial
  }

  /** The table holds a hash once while it has unfinished blocks, at the youngest of them,
      and otherwise not at all. */
  lemma {:induction false} TableHoldsTails(n: nat, calls: seq<Call>, h: int, b: nat)
    requires 1 <= n <= MAX_ACTIVE && Calls(calls) && 0 <= h < EMPTY && b < SLOTS
    ensures Reach(n, calls).table[b] == h <==> Youngest(Reach(n, calls), h, b)
  {
    var s := Reach(n, calls);
    hide Represented, HeadsRun, RingInv, Pending, Logged;
    if b !in s.free && s.log.labels[b].hash == h {
      TailIsYoungest(s, h, b);
    } else if s.table[b] != EMPTY {
      LiveEntry(s, b);
    }
  }

  lemma {:induction false} LiveEntry(s: State, b: nat)
    requires SchedInv(s) && b < SLOTS && s.table[b] != EMPTY
    ensures b !in s.free && s.table[b] == s.log.labels[b].hash
  {
    hide HeadsRun, RingInv, Pending, Logged;
    var c := View(s);
    assert !Blank(c, b) && Queued(c, b);
    assert Line(c, c.labels[b].hash, c.lines[c.labels[b].hash]);
  }

  lemma {:induction false} TailIsYoungest(s: State, h: int, b: nat)
    requires SchedInv(s) && 0 <= h < EMPTY && b < SLOTS && b !in s.free && s.log.labels[b].hash == h
    ensures s.table[b] == h <==> Youngest(s, h, b)
  {
    hide HeadsRun, RingInv, Pending, Logged;
    var c := View(s);
    assert Queued(c, b);
    var q := c.lines[h];
    assert Line(c, h, q);
    var k :| 0 <= k < |q| && q[k] == b;
    if k == |q| - 1 {
      forall a | 0 <= a < SLOTS && a !in s.free && s.log.labels[a].hash == h
        ensures s.log.labels[a].serial <= s.log.labels[b].serial
      {
        assert Queued(c, a);
        var j :| 0 <= j < |q| && q[j] == a;
        if j < k {
          LineIsOrdered(s, h, j, k);
        }
      }
    } else {
      LineIsOrdered(s, h, k, |q| - 1);
    }
  }

  // ---- reference counts and `busy` ----

  /** A triangle's count is one while it is producing plus one per unfinished block of it. */
  lemma {:induction false} ReferenceCounts(n: nat, calls: seq<Call>, t: nat)
    requires 1 <= n <= MAX_ACTIVE && Calls(calls) && t < TRIS
    ensures var s := Reach(n, calls);
            && s.tris[t].count == (if s.tris[t].produce then 1 else 0) + Sum(Refs(s.blocks, s.free, t))
            && (s.tris[t].count == 0 ==> !s.tris[t].produce && forall b :: 0 <= b < SLOTS && b !in s.free ==> s.blocks[b].tri != t)
  {
    var s := Reach(n, calls);
    var depth :| RingInv(s, depth);
    assert Counted(s.tris[t], s.blocks, s.free, t);
    if s.tris[t].count == 0 {
      forall b | 0 <= b < SLOTS && b !in s.free ensures s.blocks[b].tri != t {
        ZeroCountIsUnused(s, depth, t, b);
      }
    }
  }

  /** What `busy` counts beyond the active slots is the number of producing triangles, and these are
      exactly the ring segment from triangle_next_read up to triangle_next_write. */
  lemma {:induction false} BusyCountsTheSegment(n: nat, calls: seq<Call>)
    requires 1 <= n <= MAX_ACTIVE && Calls(calls)
    ensures var s := Reach(n, calls);
            var d := s.busy - Sum(ActiveOnes(s.active));
            && 0 <= d <= TRIS && (Ahead(s.nextRead, s.nextWrite) == d || (d == TRIS && s.nextWrite == s.nextRead))
            && forall t :: 0 <= t < TRIS ==> (s.tris[t].produce <==> Ahead(s.nextRead, t) < d)
  {
    var depth :| RingInv(Reach(n, calls), depth);
  }

  ghost predicate AllDone(s: State)
    requires Shape(s)
  {
    (forall b :: 0 <= b < SLOTS ==> b in s.free) && (forall t :: 0 <= t < TRIS ==> !s.tris[t].produce)
  }

  /** has_finished tests `busy`, which leaves out the ready blocks: it answers that all is
      done exactly when, besides, no block is ready. */
  lemma {:induction false} WhenFinishedMeansDone(n: nat, calls: seq<Call>)
    requires 1 <= n <= MAX_ACTIVE && Calls(calls)
    ensures AllDone(Reach(n, calls)) <==> Reach(n, calls).busy == 0 && Reach(n, calls).ready == {}
  {
    var s := Reach(n, calls);
    var depth :| RingInv(s, depth);
    SumZero(ActiveOnes(s.active));
    if s.busy == 0 && s.ready == {} {
      forall b | 0 <= b < SLOTS ensures b in s.free {
        if b !in s.free {
          LiveMeansRunnable(s, b);
        }
      }
    }
    if AllDone(s) {
      assert depth == 0 by { assert Ahead(s.nextRead, s.nextRead) == 0; }
      AllFreeMeansIdle(s);
    }
  }

  /** While a block is unfinished, some block is ready or active. */
  lemma {:induction false} LiveMeansRunnable(s: State, b: nat)
    requires SchedInv(s) && b < SLOTS && b !in s.free
    ensures s.ready != {} || Sum(ActiveOnes(s.active)) > 0
  {
    hide RingInv, Pending, Logged;
    var c := View(s);
    assert Queued(c, b);
    var h := c.labels[b].hash;
    assert Line(c, h, c.lines[h]);
    var front := c.lines[h][0];
    assert Head(c, front);
    if front in s.active {
      var i :| 0 <= i < |s.active| && s.active[i] == front;
      assert ActiveOnes(s.active)[i] == 1;
      SumZero(ActiveOnes(s.active));
    }
  }

  lemma {:induction false} AllFreeMeansIdle(s: State)
    requires SchedInv(s) && forall b :: 0 <= b < SLOTS ==> b in s.free
    ensures s.ready == {} && Sum(ActiveOnes(s.active)) == 0
  {
    hide RingInv, Pending, Logged;
    var c := View(s);
    forall b | 0 <= b < SLOTS ensures !Head(c, b) {
      if Head(c, b) {
        HeadIsQueued(c, b);
      }
    }
    forall i | 0 <= i < |s.active| ensures s.active[i] == EMPTY { }
    assert forall b :: b in s.ready ==> Head(c, b);
    SumZero(ActiveOnes(s.active));
  }

  lemma {:induction false} ReachStep(n: nat, calls: seq<Call>, call: Call)
    requires 1 <= n <= MAX_ACTIVE && Calls(calls) && Offers(call.arrivals)
    ensures Calls(calls + [call]) && Sane(Reach(n, calls))
    ensures Reach(n, calls + [call]) == ProcessQueue(Reach(n, calls), call.completed, call.arrivals)
  {
    hide ProcessQueue, Init, SchedInv, Offers;
    assert (calls + [call])[..|calls|] == calls;
    InvIsSane(Reach(n, calls));
  }

  /** The tag of an idle active slot reads as completed; with nothing ready that changes nothing. */
  lemma {:induction false} QuietScan(s: State)
    requires Sane(s) && s.active == [EMPTY] && s.ready == {}
    ensures Scan(s, {0}, 0) == s
  {
    assert Visit(s, 0) == s;
    assert Scan(s, {0}, 1) == s;
  }

  lemma {:induction false} FirstCall()
    ensures Sane(Init(1)) && Sane(Generate(Init(1), [Job(7, 0)]))
    ensures var a := Generate(Init(1), [Job(7, 0)]);
            && a.active == [EMPTY] && a.ready == {} && 0 in a.free && a.busy == 1
            && a.tris[a.nextRead].produce && |a.tris[a.nextRead].jobs| == 1 && !a.tris[(a.nextRead + 1) % TRIS].produce
            && ProcessQueue(Init(1), {0}, [[Job(7, 0)]]) == a
  {
    hide Scan, SchedInv, ProcessQueue;
    InitInv(1);
    InvIsSane(Init(1));
    QuietScan(Init(1));
    OneArrives(Init(1), [Job(7, 0)]);
    hide Sane;
  }

  lemma {:induction false} OneArrives(s: State, jobs: seq<Job>)
    requires Sane(s) && Scan(s, {0}, 0) == s && !s.tris[s.nextRead].produce && s.tris[s.nextWrite].count == 0 && jobs != []
    ensures Sane(Generate(s, jobs)) && ProcessQueue(s, {0}, [jobs]) == Generate(s, jobs)
  {
    hide Scan, Produce;
    assert ProduceAll(s) == s && [jobs][1..] == [];
    assert GenerateAll(Generate(s, jobs), []) == Generate(s, jobs);
  }

  /** A call that only produces the last block of the only producing triangle. */
  lemma {:induction false} LastBlockCall(a: State)
    requires Sane(a) && a.active == [EMPTY] && a.ready == {} && a.free != {} && a.tris[a.nextRead].produce
    requires |a.tris[a.nextRead].jobs| == 1 && !a.tris[(a.nextRead + 1) % TRIS].produce
    ensures var b := ProcessQueue(a, {0}, []);
            b.busy == a.busy - 1 && exists idx: nat :: idx < SLOTS && idx !in b.free
  {
    hide Scan, Pick, LowestMatch, ChainTable;
    QuietScan(a);
    TriangleRing.ProduceShape(a);
    var b := Produce(a);
    assert ProduceAll(b) == b;
    assert ProduceAll(a) == b;
    assert Pick(a.free, a.lastAdded) !in b.free;
  }

  /** ...and it does answer so too early: here one block is still ready, with no transfer under way
      at any time. */
  lemma {:induction false} FinishedTooEarly()
    ensures exists calls: seq<Call> :: Calls(calls) && (forall k :: 0 <= k < |calls| ==> calls[k].completed == {0})
                            && Reach(1, calls).busy == 0 && !AllDone(Reach(1, calls))
  {
    hide ProcessQueue, SchedInv, Core, Init, Generate, Reach, Sane;
    var first := Call({0}, [[Job(7, 0)]]);
    var second := Call({0}, []);
    assert Offers(first.arrivals) && Offers(second.arrivals);
    assert Reach(1, []) == Init(1) by { NoCalls(); }
    ReachStep(1, [], first);
    ReachStep(1, [] + [first], second);
    FirstCall();
    LastBlockCall(Reach(1, [] + [first]));
    var calls := [] + [first] + [second];
    assert forall k :: 0 <= k < |calls| ==> calls[k].completed == {0};
    assert Reach(1, calls).busy == 0;
  }

  lemma NoCalls()
    ensures Calls([]) && Reach(1, []) == Init(1)
  {
  }
}
