/** What one call does to each active slot: nothing while its transfers are under way, and one run of its
    block's handler when they have completed. */
module CallEffects {
  import opened QueueState
  import opened HashChains
  import opened LineHeads
  import opened TriangleRing
  import opened Scheduler
  import opened SchedulerRuns
  import opened SchedulerProgress

  /** Active slot i has the same block, in the same state. */
  ghost predicate Untouched(s: State, r: State, i: nat) {
    && Shape(s) && Shape(r) && i < |s.active| == |r.active| && r.active[i] == s.active[i]
    && (s.active[i] != EMPTY ==> r.blocks[s.active[i]] == s.blocks[s.active[i]] && r.log.labels[s.active[i]] == s.log.labels[s.active[i]])
  }

  /** The handler of the block in active slot i has run once: the block has stalled and is still there,
      or its end is in the log and its successor, if it had one, is in its place. */
  ghost predicate HandlerRan(s: State, r: State, i: nat) {
    && Shape(s) && Shape(r) && i < |s.active| == |r.active| && s.active[i] != EMPTY && s.log.events <= r.log.events
    && var id := s.active[i];
       if s.blocks[id].stalls > 0
       then r.active[i] == id && r.blocks[id].stalls == s.blocks[id].stalls - 1 && r.log.labels[id] == s.log.labels[id]
       else
         && (exists k :: |s.log.events| <= k < |r.log.events| && r.log.events[k] == Finished(s.log.labels[id].hash, s.log.labels[id].serial))
         && (s.chained[id] >= 0 ==> r.active[i] == s.chained[id])
  }

  /** The block in active slot i has the successor that it had. */
  ghost predicate SameSuccessor(s: State, r: State, i: nat) {
    Shape(s) && Shape(r) && i < |s.active| && (s.active[i] != EMPTY ==> r.chained[s.active[i]] == s.chained[s.active[i]])
  }

  lemma UntouchedOn(s: State, t: State, r: State, i: nat)
    requires Untouched(s, t, i) && Untouched(t, r, i)
    ensures Untouched(s, r, i)
  {
  }

  lemma SuccessorOn(s: State, t: State, r: State, i: nat)
    requires SameSuccessor(s, t, i) && SameSuccessor(t, r, i) && Untouched(s, t, i)
    ensures SameSuccessor(s, r, i)
  {
  }

  lemma RanThenUntouched(s: State, t: State, r: State, i: nat)
    requires HandlerRan(s, t, i) && Untouched(t, r, i) && t.log.events <= r.log.events
    ensures HandlerRan(s, r, i)
  {
  }

  lemma {:induction false} StartNextLeaves(s: State, j: nat, i: nat)
    requires Sane(s) && j < |s.active| && i < |s.active| && i != j && s.active[j] == EMPTY
    ensures Untouched(s, StartNext(s, j), i) && SameSuccessor(s, StartNext(s, j), i) && s.log.events <= StartNext(s, j).log.events
  {
  }

  lemma {:induction false} FinishLeaves(s: State, j: nat, i: nat)
    requires Shape(s) && j < |s.active| && i < |s.active| && i != j && s.active[j] != EMPTY && s.active[j] != s.active[i]
    ensures Shape(Finish(s, j)) && Untouched(s, Finish(s, j), i) && SameSuccessor(s, Finish(s, j), i) && s.log.events <= Finish(s, j).log.events
  {
  }

  lemma {:induction false} StallLeaves(s: State, j: nat, i: nat)
    requires Shape(s) && j < |s.active| && i < |s.active| && i != j && s.active[j] != EMPTY && s.active[j] != s.active[i]
    requires s.blocks[s.active[j]].stalls > 0
    ensures Shape(Stall(s, j)) && Untouched(s, Stall(s, j), i) && SameSuccessor(s, Stall(s, j), i) && Stall(s, j).log == s.log
  {
  }

  lemma {:induction false} VisitLeaves(s: State, j: nat, i: nat)
    requires SchedInv(s) && Sane(s) && j < |s.active| && i < |s.active| && i != j
    ensures Untouched(s, Visit(s, j), i) && SameSuccessor(s, Visit(s, j), i) && s.log.events <= Visit(s, j).log.events
  {
    hide SchedInv, Untouched, SameSuccessor, StartNext, Finish, Start, Stall;
    if s.active[j] == EMPTY {
      StartNextLeaves(s, j, i);
    } else {
      ActiveIsLive(s, j);
      if s.blocks[s.active[j]].stalls > 0 {
        StallLeaves(s, j, i);
      } else {
        var f := Finish(s, j);
        FinishLeaves(s, j, i);
        FinishInv(s, j);
        InvIsSane(f);
        FinishIdles(s, j);
        if s.chained[s.active[j]] >= 0 {
          StartLeaves(f, j, s.chained[s.active[j]], i);
        } else {
          StartNextLeaves(f, j, i);
        }
        UntouchedOn(s, f, Visit(s, j), i);
        SuccessorOn(s, f, Visit(s, j), i);
      }
    }
  }

  lemma {:induction false} StartLeaves(s: State, j: nat, b: nat, i: nat)
    requires Shape(s) && j < |s.active| && i < |s.active| && i != j && b < SLOTS
    ensures Untouched(s, Start(s, j, b, true), i) && SameSuccessor(s, Start(s, j, b, true), i) && s.log.events <= Start(s, j, b, true).log.events
  {
  }

  lemma FinishIdles(s: State, j: nat)
    requires Shape(s) && j < |s.active| && s.active[j] != EMPTY
    ensures Finish(s, j).active == s.active[j := EMPTY]
  {
  }

  // ---- the slot itself ----

  lemma {:induction false} FinishIsLogged(s: State, i: nat)
    requires Shape(s) && i < |s.active| && s.active[i] != EMPTY
    ensures var tag := s.log.labels[s.active[i]];
            Shape(Finish(s, i)) && Finish(s, i).log.events == s.log.events + [Finished(tag.hash, tag.serial)]
  {
  }

  lemma EventsGrow(s: State, j: nat)
    requires Sane(s) && j < |s.active| && s.active[j] == EMPTY
    ensures s.log.events <= StartNext(s, j).log.events
  {
  }

  lemma StartGrows(s: State, j: nat, b: nat)
    requires Shape(s) && j < |s.active| && b < SLOTS
    ensures s.log.events <= Start(s, j, b, true).log.events && Shape(Start(s, j, b, true))
    ensures Start(s, j, b, true).active == s.active[j := b]
  {
  }

  lemma {:induction false} VisitRuns(s: State, i: nat)
    requires SchedInv(s) && Sane(s) && i < |s.active|
    ensures s.active[i] != EMPTY ==> HandlerRan(s, Visit(s, i), i)
    ensures s.log.events <= Visit(s, i).log.events
  {
    hide SchedInv, StartNext, Finish, Start, Stall;
    if s.active[i] == EMPTY {
      EventsGrow(s, i);
    } else if s.blocks[s.active[i]].stalls > 0 {
      StallRan(s, i);
    } else {
      var f := Finish(s, i);
      FinishIsLogged(s, i);
      FinishInv(s, i);
      InvIsSane(f);
      FinishIdles(s, i);
      if s.chained[s.active[i]] >= 0 {
        StartGrows(f, i, s.chained[s.active[i]]);
      } else {
        EventsGrow(f, i);
      }
      var k := |s.log.events|;
      assert Visit(s, i).log.events[k] == f.log.events[k];
    }
  }

  lemma StallRan(s: State, i: nat)
    requires Shape(s) && i < |s.active| && s.active[i] != EMPTY && s.blocks[s.active[i]].stalls > 0
    ensures HandlerRan(s, Stall(s, i), i)
  {
  }

  // ---- the whole call ----

  lemma SameIsUntouched(s: State, i: nat)
    requires Shape(s) && i < |s.active|
    ensures Untouched(s, s, i)
  {
  }

  /** What the scan from slot k on does to slot i. */
  lemma {:induction false} ScanEffect(s: State, completed: set<nat>, k: nat, i: nat)
    requires SchedInv(s) && Sane(s) && k <= |s.active| && i < |s.active|
    ensures s.log.events <= Scan(s, completed, k).log.events && SchedInv(Scan(s, completed, k))
    ensures i !in completed || i < k ==> Untouched(s, Scan(s, completed, k), i)
    ensures i in completed && i >= k && s.active[i] != EMPTY ==> HandlerRan(s, Scan(s, completed, k), i)
    decreases |s.active| - k
  {
    hide SchedInv, Visit, Untouched, HandlerRan, SameSuccessor;
    SameIsUntouched(s, i);
    ScanInv(s, completed, k);
    if k < |s.active| {
      var v := if k in completed then Visit(s, k) else s;
      VisitInv(s, k);
      if i != k {
        VisitLeaves(s, k, i);
      } else {
        VisitRuns(s, i);
      }
      ScanEffect(v, completed, k + 1, i);
      var r := Scan(s, completed, k);
      assert r == Scan(v, completed, k + 1);
      if i == k && i in completed {
        if s.active[i] != EMPTY {
          RanThenUntouched(s, v, r, i);
        }
      } else {
        UntouchedOrRan(s, v, r, completed, k, i);
      }
    }
  }

  lemma UntouchedOrRan(s: State, v: State, r: State, completed: set<nat>, k: nat, i: nat)
    requires Untouched(s, v, i) && SameSuccessor(s, v, i) && s.log.events <= v.log.events
    requires i !in completed || i < k + 1 ==> Untouched(v, r, i)
    requires i in completed && i >= k + 1 && v.active[i] != EMPTY ==> HandlerRan(v, r, i)
    requires i == k ==> i !in completed
    ensures i !in completed || i < k ==> Untouched(s, r, i)
    ensures i in completed && i >= k && s.active[i] != EMPTY ==> HandlerRan(s, r, i)
  {
  }

  lemma {:induction false} ProduceLeaves(s: State, i: nat)
    requires SchedInv(s) && Sane(s) && i < |s.active| && s.free != {} && s.tris[s.nextRead].jobs != []
    ensures Untouched(s, Produce(s), i) && s.log.events == Produce(s).log.events
  {
    TriangleRing.ProduceShape(s);
    if s.active[i] != EMPTY {
      ActiveIsLive(s, i);
    }
    hide SchedInv, Pick, LowestMatch, ChainTable, Enqueue;
    TakesAFreeSlot(s, i);
  }

  lemma {:induction false} TakesAFreeSlot(s: State, i: nat)
    requires Shape(s) && i < |s.active| && s.free != {} && s.tris[s.nextRead].jobs != [] && Shape(Produce(s))
    requires Pick(s.free, s.lastAdded) in s.free && (s.active[i] != EMPTY ==> s.active[i] !in s.free)
    ensures Untouched(s, Produce(s), i) && s.log.events == Produce(s).log.events
  {
    hide LowestMatch, ChainTable, Enqueue, Pick;
  }

  lemma {:induction false} ProduceAllLeaves(s: State, i: nat)
    requires SchedInv(s) && Sane(s) && i < |s.active|
    ensures Untouched(s, ProduceAll(s), i) && s.log.events == ProduceAll(s).log.events
    decreases |s.free|
  {
    hide SchedInv, Untouched, Produce;
    SameIsUntouched(s, i);
    if s.free != {} && s.tris[s.nextRead].produce {
      ProducedIsSane(s);
      ProduceInv(s);
      ProduceLeaves(s, i);
      ProduceAllLeaves(Produce(s), i);
      UntouchedOn(s, Produce(s), ProduceAll(s), i);
    }
  }

  lemma {:induction false} GenerateAllLeaves(s: State, arrivals: seq<seq<Job>>, i: nat)
    requires Sane(s) && Triangles(arrivals) && i < |s.active|
    ensures Untouched(s, GenerateAll(s, arrivals), i) && s.log.events == GenerateAll(s, arrivals).log.events
    decreases |arrivals|
  {
    SameIsUntouched(s, i);
    if s.tris[s.nextWrite].count == 0 && arrivals != [] {
      GenerateAllLeaves(Generate(s, arrivals[0]), arrivals[1..], i);
    }
  }

  /** In every run, a call leaves an active slot alone whose transfers are under way, and runs the
      handler of the block in it once if they have completed. */
  lemma {:induction false} CallEffect(n: nat, calls: seq<Call>, completed: set<nat>, arrivals: seq<seq<Job>>, i: nat)
    requires 1 <= n <= MAX_ACTIVE && Calls(calls) && Offers(arrivals) && i < n
    ensures var s := Reach(n, calls);
            && Sane(s) && |s.active| == n
            && var r := ProcessQueue(s, completed, arrivals);
               if i !in completed then Untouched(s, r, i)
               else s.active[i] != EMPTY ==> HandlerRan(s, r, i)
  {
    var s := Reach(n, calls);
    ReachActive(n, calls);
    hide SchedInv, Untouched, HandlerRan, Reach, Scan, ProduceAll, GenerateAll;
    InvIsSane(s);
    ScanEffect(s, completed, 0, i);
    var a := Scan(s, completed, 0);
    ProduceAllLeaves(a, i);
    GenerateAllLeaves(ProduceAll(a), arrivals, i);
    UntouchedOn(a, ProduceAll(a), ProcessQueue(s, completed, arrivals), i);
    if i !in completed {
      UntouchedOn(s, a, ProcessQueue(s, completed, arrivals), i);
    } else if s.active[i] != EMPTY {
      RanThenUntouched(s, a, ProcessQueue(s, completed, arrivals), i);
    }
  }

  lemma {:induction false} ReachActive(n: nat, calls: seq<Call>)
    requires 1 <= n <= MAX_ACTIVE && Calls(calls)
    ensures |Reach(n, calls).active| == n
    decreases |calls|
  {
    hide SchedInv, ProcessQueue;
    if calls != [] {
      ReachActive(n, calls[..|calls| - 1]);
      InvIsSane(Reach(n, calls[..|calls| - 1]));
    }
  }

  // ---- nothing is left lying about ----

  /** Of the slots before k, those that were looked at are idle only if no block is ready. */
  ghost predicate Served(s: State, completed: set<nat>, k: nat) {
    forall j :: 0 <= j < k && j < |s.active| && j in completed && s.active[j] == EMPTY ==> s.ready == {}
  }

  lemma StartNextServes(s: State, j: nat)
    requires Sane(s) && j < |s.active| && s.active[j] == EMPTY
    ensures var r := StartNext(s, j);
            && (r.active[j] == EMPTY ==> s.ready == r.ready == {}) && r.ready <= s.ready
            && forall i :: 0 <= i < |s.active| && i != j ==> r.active[i] == s.active[i]
  {
    if s.ready != {} {
      var b :| b in s.ready;
      assert b < SLOTS;
    }
    hide Pick;
  }

  lemma {:induction false} VisitServes(s: State, completed: set<nat>, k: nat)
    requires Sane(s) && k < |s.active| && Served(s, completed, k)
    ensures Served(Visit(s, k), completed, k + 1)
  {
    hide StartNext;
    if s.active[k] == EMPTY {
      StartNextServes(s, k);
    } else if s.blocks[s.active[k]].stalls == 0 {
      FinishReadies(s, k);
      var f := Finish(s, k);
      hide Finish;
      if s.chained[s.active[k]] < 0 {
        StartNextServes(f, k);
      } else {
        assert f.ready - {s.chained[s.active[k]]} <= s.ready;
      }
    }
  }

  lemma FinishReadies(s: State, k: nat)
    requires Sane(s) && k < |s.active| && s.active[k] != EMPTY
    ensures var f, next := Finish(s, k), s.chained[s.active[k]];
            && Sane(f) && f.active == s.active[k := EMPTY]
            && (if next >= 0 then next < SLOTS && f.ready == s.ready + {next} else f.ready == s.ready)
  {
  }

  lemma {:induction false} ScanServes(s: State, completed: set<nat>, k: nat)
    requires Sane(s) && k <= |s.active| && Served(s, completed, k)
    ensures Served(Scan(s, completed, k), completed, |s.active|)
    decreases |s.active| - k
  {
    hide Visit, Sane;
    if k < |s.active| {
      if k in completed {
        hide Served;
        VisitServes(s, completed, k);
        ScanServes(Visit(s, k), completed, k + 1);
      } else {
        ScanServes(s, completed, k + 1);
      }
    }
  }

  /** Production brings new blocks and leaves no slot free while a triangle has one to produce. */
  lemma {:induction false} ProduceAllEnds(s: State)
    requires Sane(s)
    ensures var r := ProduceAll(s);
            && (r.free != {} ==> !r.tris[r.nextRead].produce) && |s.log.made| <= |r.log.made|
            && forall b :: b in r.ready && b !in s.ready ==> r.log.labels[b].serial >= |s.log.made|
    decreases |s.free|
  {
    if s.free != {} && s.tris[s.nextRead].produce {
      ProducedIsSane(s);
      ProduceReadies(s);
      hide Produce, Sane;
      ProduceAllEnds(Produce(s));
      NewStaysNew(Produce(s), s.ready, |s.log.made|);
    }
  }

  lemma ProduceReadies(s: State)
    requires Sane(s) && s.free != {} && s.tris[s.nextRead].jobs != []
    ensures var p := Produce(s);
            && |p.log.made| == |s.log.made| + 1
            && forall b :: b in p.ready && b !in s.ready ==> b == p.lastAdded && p.log.labels[b].serial == |s.log.made|
  {
    TriangleRing.ProduceShape(s);
    hide Pick, LowestMatch, ChainTable, Enqueue;
  }

  /** A ready block keeps its label while others are produced: its slot is taken. */
  lemma {:induction false} NewStaysNew(p: State, before: set<nat>, m: nat)
    requires Sane(p) && |p.log.made| >= m
    requires forall b :: b in p.ready && b !in before ==> p.log.labels[b].serial >= m
    ensures forall b :: b in ProduceAll(p).ready && b !in before ==> ProduceAll(p).log.labels[b].serial >= m
    decreases |p.free|
  {
    if p.free != {} && p.tris[p.nextRead].produce {
      ProducedIsSane(p);
      ProduceLabels(p);
      hide Produce, Sane;
      NewStaysNew(Produce(p), before, m);
    }
  }

  lemma ProduceLabels(s: State)
    requires Sane(s) && s.free != {} && s.tris[s.nextRead].jobs != []
    ensures var p := Produce(s);
            && |p.log.made| == |s.log.made| + 1
            && forall b :: b in p.ready ==> p.log.labels[b].serial == |s.log.made| || (b in s.ready && p.log.labels[b] == s.log.labels[b])
  {
    TriangleRing.ProduceShape(s);
    hide Pick, LowestMatch, ChainTable, Enqueue;
  }

  /** In every run, after a call: an active slot whose transfers had completed is idle only if all that is
      ready has been produced in this very call; and a slot is free only if everything generated before
      the call has been produced. */
  lemma {:induction false} NothingWaitsInVain(n: nat, calls: seq<Call>, completed: set<nat>, arrivals: seq<seq<Job>>)
    requires 1 <= n <= MAX_ACTIVE && Calls(calls) && Offers(arrivals)
    ensures var s := Reach(n, calls);
            && Sane(s)
            && var r := ProcessQueue(s, completed, arrivals);
               && |r.active| == n && (forall i, b :: 0 <= i < n && i in completed && r.active[i] == EMPTY && b in r.ready ==>
                     r.log.labels[b].serial >= |s.log.made|)
               && (r.free != {} ==> r.log.made == s.log.generated)
  {
    hide SchedInv, Reach, Sane, ProcessQueue;
    var s := Reach(n, calls);
    InvIsSane(s);
    ReachActive(n, calls);
    CallServes(s, completed, arrivals);
  }

  lemma {:induction false} CallServes(s: State, completed: set<nat>, arrivals: seq<seq<Job>>)
    requires SchedInv(s) && Sane(s) && Offers(arrivals)
    ensures var r := ProcessQueue(s, completed, arrivals);
            && |r.active| == |s.active|
            && (forall i, b :: 0 <= i < |r.active| && i in completed && r.active[i] == EMPTY && b in r.ready ==>
                  r.log.labels[b].serial >= |s.log.made|)
            && (r.free != {} ==> r.log.made == s.log.generated)
  {
    hide SchedInv, Sane, Scan, ProduceAll, GenerateAll, Served;
    var a := Scan(s, completed, 0);
    var p := ProduceAll(a);
    NoneServed(s, completed);
    ScanServes(s, completed, 0);
    ProduceAllEnds(a);
    ScanInv(s, completed, 0);
    ProduceAllInv(a);
    ScanLogs(s, completed, 0);
    ProduceAllLeavesActive(a);
    AllProduced(a);
    GenerateAllFrame(p, arrivals);
    IdleMeansNew(a, p, completed, |s.log.made|);
  }

  lemma NoneServed(s: State, completed: set<nat>)
    ensures Served(s, completed, 0)
  {
  }

  lemma IdleMeansNew(a: State, p: State, completed: set<nat>, m: nat)
    requires Sane(p) && Served(a, completed, |a.active|) && p.active == a.active
    requires forall b :: b in p.ready && b !in a.ready ==> p.log.labels[b].serial >= m
    ensures forall i, b :: 0 <= i < |p.active| && i in completed && p.active[i] == EMPTY && b in p.ready ==>
              p.log.labels[b].serial >= m
  {
  }

  lemma {:induction false} ScanLogs(s: State, completed: set<nat>, k: nat)
    requires Sane(s) && k <= |s.active|
    ensures var r := Scan(s, completed, k); r.log.made == s.log.made && r.log.generated == s.log.generated
    decreases |s.active| - k
  {
    if k < |s.active| {
      VisitLogs(s, k);
      hide Visit, Sane;
      ScanLogs(if k in completed then Visit(s, k) else s, completed, k + 1);
    }
  }

  lemma VisitLogs(s: State, k: nat)
    requires Sane(s) && k < |s.active|
    ensures Visit(s, k).log.made == s.log.made && Visit(s, k).log.generated == s.log.generated
  {
  }

  lemma {:induction false} ProduceAllLeavesActive(s: State)
    requires Sane(s)
    ensures ProduceAll(s).active == s.active && ProduceAll(s).log.generated == s.log.generated
    decreases |s.free|
  {
    if s.free != {} && s.tris[s.nextRead].produce {
      ProducedIsSane(s);
      ProduceAllLeavesActive(Produce(s));
    }
  }

  lemma {:induction false} GenerateAllFrame(s: State, arrivals: seq<seq<Job>>)
    requires Sane(s) && Triangles(arrivals)
    ensures var r := GenerateAll(s, arrivals);
            && r.active == s.active && r.ready == s.ready && r.free == s.free
            && r.log.made == s.log.made && r.log.labels == s.log.labels
    decreases |arrivals|
  {
    if s.tris[s.nextWrite].count == 0 && arrivals != [] {
      GenerateAllFrame(Generate(s, arrivals[0]), arrivals[1..]);
    }
  }

  /** With nothing producing at the read end of the ring, all has been produced. */
  lemma {:induction false} AllProduced(a: State)
    requires SchedInv(a) && Sane(a) && SchedInv(ProduceAll(a))
    ensures ProduceAll(a).free != {} ==> ProduceAll(a).log.made == a.log.generated
  {
    var p := ProduceAll(a);
    ProduceAllEnds(a);
    ProduceAllLeavesActive(a);
    if p.free != {} {
      hide Represented, HeadsRun, Logged, Pending;
      var depth :| RingInv(p, depth);
      assert Ahead(p.nextRead, p.nextRead) == 0;
      assert depth == 0;
      assert RingJobs(p.tris, p.nextRead, 0) == [];
    }
  }
}
