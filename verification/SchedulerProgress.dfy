/** The scheduler does not deadlock: a measure of the work left goes down in every call that
    finds all DMA tags completed, until nothing is left. */
module SchedulerProgress {
  import opened Sums
  import opened Masks
  import opened QueueState
  import opened HashChains
  import opened LineHeads
  import opened SerialOrder
  import opened TriangleRing
  import opened Scheduler
  import opened SchedulerRuns

  // ---- the measure ----

  /** A job will be produced, started, stalled as often as it says, and finished. */
  function JobsWork(jobs: seq<Job>): nat {
    if jobs == [] then 0 else JobsWork(jobs[1..]) + jobs[0].stalls + 3
  }

  function SlotWork(s: State, b: nat): nat
    requires Shape(s) && b < SLOTS
  {
    if b in s.free then 0 else s.blocks[b].stalls + if b in s.active then 1 else 2
  }

  function TriRow(tris: seq<Tri>): seq<nat> {
    seq(|tris|, t requires 0 <= t < |tris| => JobsWork(tris[t].jobs))
  }

  function SlotRow(s: State): seq<nat>
    requires Shape(s)
  {
    seq(SLOTS, b requires 0 <= b < SLOTS => SlotWork(s, b))
  }

  /** Everything that still has to happen. */
  function Work(s: State): nat
    requires Shape(s)
  {
    Sum(TriRow(s.tris)) + Sum(SlotRow(s))
  }

  // ---- each step does one unit of it ----

  lemma {:induction false} StallWorks(s: State, i: nat)
    requires SchedInv(s) && i < |s.active| && s.active[i] != EMPTY && s.blocks[s.active[i]].stalls > 0
    ensures Shape(Stall(s, i)) && Work(Stall(s, i)) == Work(s) - 1
  {
    hide Represented, HeadsRun, Logged, Pending, RingInv;
    var r := Stall(s, i);
    ActiveIsLive(s, i);
    SumChange(SlotRow(s), SlotRow(r), s.active[i]);
  }

  lemma {:induction false} ActiveIsLive(s: State, i: nat)
    requires SchedInv(s) && i < |s.active| && s.active[i] != EMPTY
    ensures 0 <= s.active[i] < SLOTS && s.active[i] !in s.free && s.active[i] in s.active
    ensures forall j :: 0 <= j < |s.active| && j != i ==> s.active[j] != s.active[i]
  {
    hide Logged, Pending, RingInv, Represented;
    assert Head(View(s), s.active[i]);
    HeadIsQueued(View(s), s.active[i]);
  }

  lemma {:induction false} ReadyIsLive(s: State, b: nat)
    requires SchedInv(s) && b in s.ready
    ensures b < SLOTS && b !in s.free && b !in s.active
  {
    hide Logged, Pending, RingInv, Represented;
    assert Head(View(s), b);
    HeadIsQueued(View(s), b);
  }

  lemma {:induction false} StartWorks(s: State, i: nat, b: nat, handed: bool)
    requires SchedInv(s) && i < |s.active| && s.active[i] == EMPTY && b in s.ready
    ensures b < SLOTS && Shape(Start(s, i, b, handed)) && Work(Start(s, i, b, handed)) == Work(s) - 1
  {
    hide Represented, HeadsRun, Logged, Pending, RingInv;
    var r := Start(s, i, b, handed);
    ReadyIsLive(s, b);
    assert r.active[i] == b;
    forall c: nat | c < SLOTS && c != b ensures SlotWork(r, c) == SlotWork(s, c) {
      if c in s.active {
        InActive(s.active, i, b, c);
      }
    }
    SumChange(SlotRow(s), SlotRow(r), b);
  }

  lemma {:induction false} FinishWorks(s: State, i: nat)
    requires SchedInv(s) && i < |s.active| && s.active[i] != EMPTY && s.blocks[s.active[i]].stalls == 0
    ensures Shape(Finish(s, i)) && Work(Finish(s, i)) == Work(s) - 1
  {
    hide Represented, HeadsRun, Logged, Pending, RingInv;
    var r := Finish(s, i);
    var id := s.active[i];
    ActiveIsLive(s, i);
    forall c: nat | c < SLOTS && c != id ensures SlotWork(r, c) == SlotWork(s, c) {
      if c in s.active {
        InActive(s.active, i, EMPTY, c);
      }
    }
    SumChange(SlotRow(s), SlotRow(r), id);
    assert TriRow(r.tris) == TriRow(s.tris);
  }

  lemma {:induction false} ProduceWorks(s: State)
    requires SchedInv(s) && s.free != {} && s.tris[s.nextRead].produce && s.tris[s.nextRead].jobs != []
    ensures Shape(Produce(s)) && Work(Produce(s)) == Work(s) - 1
  {
    hide Represented, HeadsRun, Logged, Pending, RingInv;
    TriangleRing.ProduceShape(s);
    var r := Produce(s);
    var idx := Pick(s.free, s.lastAdded);
    FreeIsIdle(s, idx);
    SumChange(SlotRow(s), SlotRow(r), idx);
    SumChange(TriRow(s.tris), TriRow(r.tris), s.nextRead);
  }

  lemma {:induction false} FreeIsIdle(s: State, b: nat)
    requires SchedInv(s) && b in s.free
    ensures b < SLOTS && b !in s.active
  {
    hide Logged, Pending, RingInv;
    ActiveIsNotFree(View(s), s.ready, s.active, b);
  }

  // ---- a call never adds work, and with every tag completed it does some ----

  lemma {:induction false} StartNextWorks(s: State, i: nat)
    requires SchedInv(s) && Sane(s) && i < |s.active| && s.active[i] == EMPTY
    ensures Work(StartNext(s, i)) <= Work(s)
    ensures s.ready != {} ==> Work(StartNext(s, i)) < Work(s)
    ensures s.ready == {} ==> StartNext(s, i) == s
  {
    hide Work, Represented, HeadsRun, Logged, Pending, RingInv;
    if s.ready != {} {
      var c :| c in s.ready;
      assert c < SLOTS;
      StartWorks(s, i, Pick(s.ready, s.lastStarted), false);
    }
  }

  lemma {:induction false} VisitWorks(s: State, i: nat)
    requires SchedInv(s) && Sane(s) && i < |s.active|
    ensures Work(Visit(s, i)) <= Work(s)
    ensures s.active[i] != EMPTY || s.ready != {} ==> Work(Visit(s, i)) < Work(s)
    ensures s.active[i] == EMPTY && s.ready == {} ==> Visit(s, i) == s
    ensures forall j :: 0 <= j < |s.active| && j != i ==> Visit(s, i).active[j] == s.active[j]
  {
    hide Work, SchedInv;
    if s.active[i] == EMPTY {
      StartNextWorks(s, i);
    } else if s.blocks[s.active[i]].stalls > 0 {
      StallWorks(s, i);
    } else {
      FinishWorks(s, i);
      FinishInv(s, i);
      if s.chained[s.active[i]] >= 0 {
        StartWorks(Finish(s, i), i, s.chained[s.active[i]], true);
      } else {
        StartNextWorks(Finish(s, i), i);
      }
    }
  }

  lemma {:induction false} ScanWorks(s: State, completed: set<nat>, i: nat)
    requires SchedInv(s) && Sane(s) && i <= |s.active|
    ensures Work(Scan(s, completed, i)) <= Work(s)
    ensures (forall j :: i <= j < |s.active| ==> j in completed) && i < |s.active| &&
            (s.ready != {} || exists j :: i <= j < |s.active| && s.active[j] != EMPTY)
            ==> Work(Scan(s, completed, i)) < Work(s)
    decreases |s.active| - i
  {
    hide Work, SchedInv, Visit, Sane;
    if i < |s.active| {
      if i in completed {
        VisitInv(s, i);
        VisitWorks(s, i);
      }
      ScanWorks(if i in completed then Visit(s, i) else s, completed, i + 1);
    }
  }

  lemma {:induction false} ProduceAllWorks(s: State)
    requires SchedInv(s) && Sane(s)
    ensures Work(ProduceAll(s)) <= Work(s)
    ensures s.free != {} && s.tris[s.nextRead].produce ==> Work(ProduceAll(s)) < Work(s)
    decreases |s.free|
  {
    hide Work, SchedInv;
    if s.free != {} && s.tris[s.nextRead].produce {
      TriangleRing.ProduceShape(s);
      ProduceInv(s);
      ProduceWorks(s);
      ProduceAllWorks(Produce(s));
    }
  }

  /** What is left when no work is left, and the other way round. */
  lemma {:induction false} NoWorkMeansDone(s: State)
    requires SchedInv(s)
    ensures Work(s) == 0 <==> AllDone(s)
  {
    hide Represented, HeadsRun, Logged, Pending, RingInv;
    InvIsSane(s);
    SumZero(TriRow(s.tris));
    SumZero(SlotRow(s));
    if AllDone(s) {
      forall t | 0 <= t < TRIS ensures s.tris[t].jobs == [] {
        QuietHasNoJobs(s, t);
      }
      forall t | 0 <= t < TRIS ensures TriRow(s.tris)[t] == 0 { }
    }
    if Work(s) == 0 {
      forall b | 0 <= b < SLOTS ensures b in s.free {
        assert SlotRow(s)[b] == 0;
      }
      forall t | 0 <= t < TRIS ensures !s.tris[t].produce {
        assert TriRow(s.tris)[t] == 0;
      }
    }
  }

  lemma {:induction false} QuietHasNoJobs(s: State, t: nat)
    requires SchedInv(s) && t < TRIS && !s.tris[t].produce
    ensures s.tris[t].jobs == []
  {
    hide Represented, HeadsRun, Logged, Pending;
    var depth :| RingInv(s, depth);
    assert Counted(s.tris[t], s.blocks, s.free, t);
  }

  /** Work is left and no block can run: then there is a free slot and a producing triangle at
      the read end of the ring. */
  lemma {:induction false} ElseProduces(s: State)
    requires SchedInv(s) && Work(s) > 0 && s.ready == {}
    requires forall i :: 0 <= i < |s.active| ==> s.active[i] == EMPTY
    ensures s.free != {} && s.tris[s.nextRead].produce
  {
    hide Represented, HeadsRun, Logged, Pending, Work;
    NoWorkMeansDone(s);
    forall b | 0 <= b < SLOTS ensures b in s.free {
      if b !in s.free {
        LiveMeansRunnable(s, b);
        SumZero(ActiveOnes(s.active));
      }
    }
    assert 0 in s.free;
    var depth :| RingInv(s, depth);
    var t :| 0 <= t < TRIS && s.tris[t].produce;
    assert Ahead(s.nextRead, s.nextRead) == 0;
  }

  /** A call with every tag completed and no new triangle does some of the work, if any is
      left; a call with other tags completed never adds any. */
  lemma {:induction false} CallWorks(s: State, completed: set<nat>)
    requires SchedInv(s) && Sane(s)
    ensures Work(ProcessQueue(s, completed, [])) <= Work(s)
    ensures Work(s) > 0 && (forall i :: 0 <= i < |s.active| ==> i in completed)
            ==> Work(ProcessQueue(s, completed, [])) < Work(s)
  {
    hide Work, SchedInv;
    ScanInv(s, completed, 0);
    ScanWorks(s, completed, 0);
    var a := Scan(s, completed, 0);
    ProduceAllInv(a);
    ProduceAllWorks(a);
    assert GenerateAll(ProduceAll(a), []) == ProduceAll(a);
    if Work(s) > 0 && s.ready == {} && forall i :: 0 <= i < |s.active| ==> s.active[i] == EMPTY {
      ElseProduces(s);
      IdleScan(s, completed, 0);
    }
  }

  lemma {:induction false} IdleScan(s: State, completed: set<nat>, i: nat)
    requires SchedInv(s) && Sane(s) && i <= |s.active| && s.ready == {}
    requires forall j :: 0 <= j < |s.active| ==> s.active[j] == EMPTY
    ensures Scan(s, completed, i) == s
    decreases |s.active| - i
  {
    hide Work, SchedInv, Visit, Sane;
    if i < |s.active| {
      VisitWorks(s, i);
      IdleScan(s, completed, i + 1);
    }
  }

  // ---- draining ----

  /** Further calls without new triangles, each with the tags it finds completed. */
  ghost function Drain(s: State, tags: seq<set<nat>>): (r: State)
    requires SchedInv(s)
    ensures SchedInv(r) && |r.active| == |s.active|
  {
    if tags == [] then s
    else
      var before := Drain(s, tags[..|tags| - 1]);
      ProcessQueueInv(before, tags[|tags| - 1], []);
      ProcessQueue(before, tags[|tags| - 1], [])
  }

  /** How many of the calls found the tags of all n active slots completed. */
  ghost function FullCalls(n: nat, tags: seq<set<nat>>): nat {
    if tags == [] then 0
    else FullCalls(n, tags[..|tags| - 1]) + if Below(n) <= tags[|tags| - 1] then 1 else 0
  }

  lemma {:induction false} DrainWorks(s: State, tags: seq<set<nat>>)
    requires SchedInv(s)
    ensures Work(Drain(s, tags)) + FullCalls(|s.active|, tags) <= Work(s) || Work(Drain(s, tags)) == 0
  {
    hide Work, SchedInv, ProcessQueue;
    if tags != [] {
      var front := tags[..|tags| - 1];
      DrainWorks(s, front);
      var before := Drain(s, front);
      InvIsSane(before);
      CallWorks(before, tags[|tags| - 1]);
    }
  }

  /** No deadlock: from any reachable state, once as many calls as there is work have found all
      tags completed, every block of every triangle has been produced, started and finished,
      and for each hash the blocks ran one at a time in production order. */
  lemma {:induction false} EverythingFinishes(n: nat, calls: seq<Call>, tags: seq<set<nat>>, h: int)
    requires 1 <= n <= MAX_ACTIVE && Calls(calls) && 0 <= h < EMPTY
    ensures var s := Reach(n, calls);
            var r := Drain(s, tags);
            FullCalls(|s.active|, tags) >= Work(s) ==>
              && AllDone(r)
              && r.log.made == r.log.generated
              && EventsOf(r.log.events, h) == OneByOne(h, SerialsOf(r.log.generated, h))
  {
    var s := Reach(n, calls);
    var r := Drain(s, tags);
    if FullCalls(|s.active|, tags) >= Work(s) {
      DrainWorks(s, tags);
      NoWorkMeansDone(r);
      DoneIsComplete(r, h);
    }
  }

  lemma {:induction false} DoneIsComplete(r: State, h: int)
    requires SchedInv(r) && AllDone(r) && 0 <= h < EMPTY
    ensures r.log.made == r.log.generated
    ensures EventsOf(r.log.events, h) == OneByOne(h, SerialsOf(r.log.made, h))
  {
    hide HeadsRun, Pending;
    var depth :| RingInv(r, depth);
    assert depth == 0 by { assert Ahead(r.nextRead, r.nextRead) == 0; }
    assert LogInv(View(r), r.active, r.log.made, r.log.events, h);
    assert h in r.log.lines ==> Line(View(r), h, r.log.lines[h]);
    EventsComplete(View(r), r.active, r.log.made, r.log.events, h);
  }
}
