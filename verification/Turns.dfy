/** Whose turn it is: slots are taken one after the other going down and round, which bounds how long
    a ready block is passed over. */
module Turns {
  import opened QueueState
  import opened HashChains
  import opened LineHeads
  import opened SerialOrder
  import opened TriangleRing
  import opened Scheduler
  import opened SchedulerRuns
  import opened SchedulerProgress

  // ---- the law ----

  /** The slot taken last; nought to begin with. */
  function Last(choices: seq<Choice>): nat {
    if choices == [] then 0 else choices[|choices| - 1].slot
  }

  /** The slot is one of those that there were, and if it was picked, no other comes before it going
      down from `last` and then round from the top. */
  ghost predicate First(last: nat, c: Choice) {
    && last < SLOTS && c.slot < SLOTS && c.slot in c.among
    && (!c.handed ==> forall j: nat :: j in c.among && j < SLOTS ==> Turn(last, c.slot) <= Turn(last, j))
  }

  ghost predicate InTurn(choices: seq<Choice>) {
    forall k :: 0 <= k < |choices| ==> First(Last(choices[..k]), choices[k])
  }

  lemma TurnsGoOn(choices: seq<Choice>, c: Choice)
    requires InTurn(choices) && First(Last(choices), c)
    ensures InTurn(choices + [c]) && Last(choices + [c]) == c.slot
  {
    var longer := choices + [c];
    assert longer[..|choices|] == choices;
    forall k | 0 <= k < |longer| ensures First(Last(longer[..k]), longer[k]) {
      if k < |choices| {
        assert longer[..k] == choices[..k];
      }
    }
  }

  // ---- the choices belong to the events ----

  /** The slots in which the started blocks were, in the order of their starts. */
  function StartedIn(events: seq<Event>, places: seq<Choice>): seq<nat> {
    if events == [] then []
    else
      var e := events[|events| - 1];
      StartedIn(events[..|events| - 1], places) +
      if e.Started? && e.serial < |places| then [places[e.serial].slot] else []
  }

  function Slots(choices: seq<Choice>): seq<nat> {
    seq(|choices|, k requires 0 <= k < |choices| => choices[k].slot)
  }

  /** Each start that was handed over follows the finish of a block of the same hash. */
  ghost predicate HandedOver(events: seq<Event>, starts: seq<Choice>)
    decreases |events|
  {
    if events == [] then starts == []
    else
      var front, e := events[..|events| - 1], events[|events| - 1];
      if e.Finished? then HandedOver(front, starts)
      else
        && starts != [] && HandedOver(front, starts[..|starts| - 1])
        && (starts[|starts| - 1].handed ==> front != [] && front[|front| - 1].Finished? && front[|front| - 1].hash == e.hash)
  }

  /** The slot of an unfinished block is the one that was taken for it. */
  ghost predicate Placed(s: State)
    requires Shape(s)
  {
    && |s.log.places| == |s.log.made|
    && forall b :: 0 <= b < SLOTS && b !in s.free ==>
         var serial := s.log.labels[b].serial;
         serial < |s.log.places| && s.log.places[serial].slot == b && s.log.made[serial].hash == s.log.labels[b].hash
  }

  ghost predicate Known(events: seq<Event>, places: seq<Choice>) {
    forall k :: 0 <= k < |events| ==> events[k].serial < |places|
  }

  /** Exactly the unfinished blocks have a handler. */
  ghost predicate Handlers(s: State)
    requires Shape(s)
  {
    forall b :: 0 <= b < SLOTS ==> (s.blocks[b].process <==> b !in s.free)
  }

  ghost predicate TurnInv(s: State) {
    && Shape(s) && Handlers(s) && InTurn(s.log.starts) && InTurn(s.log.places)
    && s.lastStarted == Last(s.log.starts) && s.lastAdded == Last(s.log.places)
    && Placed(s) && Known(s.log.events, s.log.places) && Slots(s.log.starts) == StartedIn(s.log.events, s.log.places)
    && HandedOver(s.log.events, s.log.starts)
  }

  lemma {:induction false} InitTurns(n: nat)
    requires 1 <= n <= MAX_ACTIVE
    ensures TurnInv(Init(n))
  {
  }

  // ---- the steps keep it ----

  lemma {:induction false} StartedInMore(events: seq<Event>, places: seq<Choice>, c: Choice)
    requires Known(events, places)
    ensures StartedIn(events, places + [c]) == StartedIn(events, places) && Known(events, places + [c])
  {
    if events != [] {
      StartedInMore(events[..|events| - 1], places, c);
    }
  }

  lemma StartedInNext(events: seq<Event>, places: seq<Choice>, e: Event)
    requires Known(events, places) && e.serial < |places|
    ensures Known(events + [e], places)
    ensures StartedIn(events + [e], places) == StartedIn(events, places) + if e.Started? then [places[e.serial].slot] else []
  {
    assert (events + [e])[..|events|] == events;
  }

  lemma SlotsNext(choices: seq<Choice>, c: Choice)
    ensures Slots(choices + [c]) == Slots(choices) + [c.slot]
  {
  }

  lemma HandedNext(events: seq<Event>, starts: seq<Choice>, e: Event, c: Choice)
    requires HandedOver(events, starts)
    ensures e.Finished? ==> HandedOver(events + [e], starts)
    ensures e.Started? && (c.handed ==> events != [] && events[|events| - 1].Finished? && events[|events| - 1].hash == e.hash)
            ==> HandedOver(events + [e], starts + [c])
  {
    assert (events + [e])[..|events|] == events && (starts + [c])[..|starts|] == starts;
  }

  lemma PlacedStays(s: State, r: State)
    requires Shape(s) && Shape(r) && Placed(s) && s.free <= r.free
    requires r.log.places == s.log.places && r.log.made == s.log.made && r.log.labels == s.log.labels
    ensures Placed(r)
  {
  }

  lemma PlaceOf(s: State, b: nat)
    requires Shape(s) && Placed(s) && b < SLOTS && b !in s.free
    ensures s.log.labels[b].serial < |s.log.places| && s.log.places[s.log.labels[b].serial].slot == b
  {
  }

  lemma {:induction false} StallTurns(s: State, i: nat)
    requires TurnInv(s) && i < |s.active| && s.active[i] != EMPTY && s.active[i] !in s.free && s.blocks[s.active[i]].stalls > 0
    ensures TurnInv(Stall(s, i))
  {
    hide InTurn, HandedOver, StartedIn, Slots, Known;
  }

  /** A start is in turn if it is the picker's, or follows a finish of its own hash. */
  ghost predicate Due(s: State, b: nat, handed: bool)
    requires Shape(s) && b < SLOTS
  {
    && b in s.ready && b !in s.free
    && (!handed ==> b == Pick(s.ready, s.lastStarted))
    && (handed ==> var e := s.log.events;
                   e != [] && e[|e| - 1].Finished? && e[|e| - 1].hash == s.log.labels[b].hash)
  }

  lemma DueIsFirst(s: State, b: nat, handed: bool)
    requires Shape(s) && b < SLOTS && Due(s, b, handed)
    ensures First(s.lastStarted, Choice(b, s.ready, handed)) && b !in s.free
    ensures var e := s.log.events;
            handed ==> e != [] && e[|e| - 1].Finished? && e[|e| - 1].hash == s.log.labels[b].hash
  {
  }

  lemma StartFrame(s: State, i: nat, b: nat, handed: bool)
    requires Shape(s) && i < |s.active| && b < SLOTS
    ensures var r, tag := Start(s, i, b, handed), s.log.labels[b];
            && Shape(r) && r.lastStarted == b && r.lastAdded == s.lastAdded && r.free == s.free && r.blocks == s.blocks
            && r.log == s.log.(events := s.log.events + [Started(tag.hash, tag.serial)],
                               starts := s.log.starts + [Choice(b, s.ready, handed)])
  {
  }

  lemma {:induction false} StartTurns(s: State, i: nat, b: nat, handed: bool)
    requires TurnInv(s) && i < |s.active| && b < SLOTS && Due(s, b, handed)
    ensures TurnInv(Start(s, i, b, handed))
  {
    hide Placed, InTurn, First, Pick, HandedOver, StartedIn, Slots, Known, Last, Due;
    var tag := s.log.labels[b];
    var c := Choice(b, s.ready, handed);
    var e := Started(tag.hash, tag.serial);
    DueIsFirst(s, b, handed);
    StartFrame(s, i, b, handed);
    PlaceOf(s, b);
    PlacedStays(s, Start(s, i, b, handed));
    hide Start, Shape;
    TurnsGoOn(s.log.starts, c);
    StartedInNext(s.log.events, s.log.places, e);
    SlotsNext(s.log.starts, c);
    HandedNext(s.log.events, s.log.starts, e, c);
  }

  lemma {:induction false} FinishTurns(s: State, i: nat)
    requires TurnInv(s) && i < |s.active| && s.active[i] != EMPTY && s.active[i] !in s.free
    ensures TurnInv(Finish(s, i))
    ensures var e := Finish(s, i).log.events;
            e != [] && e[|e| - 1].Finished? && e[|e| - 1].hash == s.log.labels[s.active[i]].hash
  {
    hide Placed, InTurn, HandedOver, StartedIn, Slots, Known, Last, Handlers;
    var tag := s.log.labels[s.active[i]];
    var e := Finished(tag.hash, tag.serial);
    FinishFrame(s, i);
    PlaceOf(s, s.active[i]);
    PlacedStays(s, Finish(s, i));
    FinishHandlers(s, i);
    hide Finish, Shape;
    StartedInNext(s.log.events, s.log.places, e);
    HandedNext(s.log.events, s.log.starts, e, Choice(0, {}, false));
  }

  lemma FinishFrame(s: State, i: nat)
    requires Shape(s) && i < |s.active| && s.active[i] != EMPTY
    ensures var r, tag := Finish(s, i), s.log.labels[s.active[i]];
            && Shape(r) && s.free <= r.free && r.lastStarted == s.lastStarted && r.lastAdded == s.lastAdded
            && r.log.places == s.log.places && r.log.made == s.log.made && r.log.labels == s.log.labels
            && r.log.starts == s.log.starts && r.log.events == s.log.events + [Finished(tag.hash, tag.serial)]
  {
  }

  lemma FinishHandlers(s: State, i: nat)
    requires Shape(s) && Handlers(s) && i < |s.active| && s.active[i] != EMPTY
    ensures Shape(Finish(s, i)) && Handlers(Finish(s, i))
  {
  }

  lemma {:induction false} ProduceTurns(s: State)
    requires TurnInv(s) && s.free != {} && s.tris[s.nextRead].jobs != []
    ensures TurnInv(Produce(s))
  {
    hide InTurn, HandedOver, StartedIn, Slots, Known, Pick, LowestMatch, ChainTable, Enqueue, First, Last, Placed, Handlers;
    TriangleRing.ProduceShape(s);
    var c := Choice(Pick(s.free, s.lastAdded), s.free, false);
    PickIsFirst(s.free, s.lastAdded);
    ProduceFrame(s);
    ProduceHandlers(s);
    ProducePlaced(s);
    hide Produce, Shape;
    TurnsGoOn(s.log.places, c);
    StartedInMore(s.log.events, s.log.places, c);
  }

  lemma PickIsFirst(mask: set<nat>, last: nat)
    requires last < SLOTS && 0 <= Pick(mask, last)
    ensures First(last, Choice(Pick(mask, last), mask, false))
  {
  }

  lemma ProduceFrame(s: State)
    requires Shape(s) && s.free != {} && s.tris[s.nextRead].jobs != []
    ensures var r, idx := Produce(s), Pick(s.free, s.lastAdded);
            && 0 <= idx < SLOTS && Shape(r) && r.lastAdded == idx && r.lastStarted == s.lastStarted
            && r.log.places == s.log.places + [Choice(idx, s.free, false)]
            && r.log.starts == s.log.starts && r.log.events == s.log.events
  {
    TriangleRing.ProduceShape(s);
    hide Pick, LowestMatch, ChainTable, Enqueue;
  }

  lemma ProduceHandlers(s: State)
    requires Shape(s) && Handlers(s) && s.free != {} && s.tris[s.nextRead].jobs != []
    ensures Shape(Produce(s)) && Handlers(Produce(s))
  {
    TriangleRing.ProduceShape(s);
    hide Pick, LowestMatch, ChainTable, Enqueue;
  }

  lemma ProducePlaced(s: State)
    requires Shape(s) && Placed(s) && s.free != {} && s.tris[s.nextRead].jobs != []
    ensures Shape(Produce(s)) && Placed(Produce(s))
  {
    TriangleRing.ProduceShape(s);
    hide Pick, LowestMatch, ChainTable, Enqueue;
  }

  lemma {:induction false} GenerateTurns(s: State, jobs: seq<Job>)
    requires TurnInv(s)
    ensures TurnInv(Generate(s, jobs))
  {
    hide InTurn, HandedOver, StartedIn, Slots, Known;
  }

  // ---- what becomes of a ready block ----

  ghost predicate Taken(c: seq<Choice>, from: nat, b: nat) {
    exists k :: from <= k < |c| && c[k].slot == b
  }

  /** Slot b was ready at each start from there on, and none was its own. */
  ghost predicate PassedOver(c: seq<Choice>, from: nat, b: nat) {
    forall k :: from <= k < |c| ==> b in c[k].among && c[k].slot != b
  }

  /** From s to r: every ready block has been started, or is ready still and was so all along. */
  ghost predicate Goes(s: State, r: State) {
    && s.log.starts <= r.log.starts
    && forall b :: b in s.ready ==>
         Taken(r.log.starts, |s.log.starts|, b) || (b in r.ready && PassedOver(r.log.starts, |s.log.starts|, b))
  }

  lemma GoesOn(s: State, t: State, r: State)
    requires Goes(s, t) && Goes(t, r)
    ensures Goes(s, r)
  {
    var c, n := r.log.starts, |s.log.starts|;
    forall b | b in s.ready ensures Taken(c, n, b) || (b in r.ready && PassedOver(c, n, b)) {
      if Taken(t.log.starts, n, b) {
        var k :| n <= k < |t.log.starts| && t.log.starts[k].slot == b;
        assert c[k].slot == b;
      } else if Taken(c, |t.log.starts|, b) {
        var k :| |t.log.starts| <= k < |c| && c[k].slot == b;
        assert c[k].slot == b;
      }
    }
  }

  lemma GoesQuietly(s: State, r: State)
    requires r.log.starts == s.log.starts && s.ready <= r.ready
    ensures Goes(s, r)
  {
  }

  lemma GoesToStart(s: State, i: nat, b: nat, handed: bool)
    requires Shape(s) && i < |s.active| && b < SLOTS
    ensures Goes(s, Start(s, i, b, handed))
  {
    var r := Start(s, i, b, handed);
    assert r.log.starts[|s.log.starts|].slot == b;
  }

  // ---- calls ----

  ghost predicate Run(s: State) {
    SchedInv(s) && TurnInv(s)
  }

  lemma {:induction false} StartNextRuns(s: State, i: nat)
    requires Run(s) && Sane(s) && i < |s.active| && s.active[i] == EMPTY
    ensures Run(StartNext(s, i)) && Goes(s, StartNext(s, i))
  {
    hide SchedInv, TurnInv, Goes;
    StartNextInv(s, i);
    GoesQuietly(s, s);
    var b := Pick(s.ready, s.lastStarted);
    if b >= 0 {
      ReadyIsLive(s, b);
      StartTurns(s, i, b, false);
      GoesToStart(s, i, b, false);
    }
  }

  lemma {:induction false} FinishRuns(s: State, i: nat)
    requires Run(s) && i < |s.active| && s.active[i] != EMPTY
    ensures Run(Finish(s, i)) && Goes(s, Finish(s, i)) && Shape(Finish(s, i))
    ensures s.chained[s.active[i]] >= 0 ==> Due(Finish(s, i), s.chained[s.active[i]], true)
  {
    hide TurnInv, Goes, Represented, HeadsRun, Logged, RingInv, Pending;
    ActiveIsLive(s, i);
    FinishInv(s, i);
    FinishTurns(s, i);
    GoesQuietly(s, Finish(s, i));
    var next := s.chained[s.active[i]];
    if next >= 0 {
      ReadyIsLive(Finish(s, i), next);
      var h, k := ChainStep(s, s.active[i]);
      LineIsOrdered(s, h, k, k + 1);
      LineHash(s, h, k + 1);
    }
  }

  lemma {:induction false} LineHash(s: State, h: int, k: nat)
    requires SchedInv(s) && h in s.log.lines && k < |s.log.lines[h]|
    ensures s.log.lines[h][k] < SLOTS && s.log.labels[s.log.lines[h][k]].hash == h
  {
    hide HeadsRun, RingInv, Pending, Logged;
    assert Line(View(s), h, s.log.lines[h]);
  }

  lemma {:induction false} VisitRuns(s: State, i: nat)
    requires Run(s) && Sane(s) && i < |s.active|
    ensures Run(Visit(s, i)) && Goes(s, Visit(s, i))
  {
    hide SchedInv, TurnInv, Goes, Due;
    if s.active[i] == EMPTY {
      StartNextRuns(s, i);
    } else if s.blocks[s.active[i]].stalls > 0 {
      StallInv(s, i);
      ActiveIsLive(s, i);
      StallTurns(s, i);
      GoesQuietly(s, Stall(s, i));
    } else {
      var f := Finish(s, i);
      FinishRuns(s, i);
      InvIsSane(f);
      if s.chained[s.active[i]] >= 0 {
        VisitInv(s, i);
        StartTurns(f, i, s.chained[s.active[i]], true);
        GoesToStart(f, i, s.chained[s.active[i]], true);
      } else {
        StartNextRuns(f, i);
      }
      GoesOn(s, f, Visit(s, i));
    }
  }

  lemma {:induction false} ScanRuns(s: State, completed: set<nat>, i: nat)
    requires Run(s) && Sane(s) && i <= |s.active|
    ensures Run(Scan(s, completed, i)) && Goes(s, Scan(s, completed, i))
    decreases |s.active| - i
  {
    hide Run, Visit, Goes;
    GoesQuietly(s, s);
    if i < |s.active| {
      if i in completed {
        VisitRuns(s, i);
      }
      var v := if i in completed then Visit(s, i) else s;
      ScanRuns(v, completed, i + 1);
      GoesOn(s, v, Scan(s, completed, i));
    }
  }

  lemma {:induction false} ProduceAllRuns(s: State)
    requires Run(s) && Sane(s)
    ensures Run(ProduceAll(s)) && Goes(s, ProduceAll(s))
    decreases |s.free|
  {
    hide SchedInv, TurnInv, Goes;
    GoesQuietly(s, s);
    if s.free != {} && s.tris[s.nextRead].produce {
      TriangleRing.ProduceShape(s);
      ProduceInv(s);
      ProduceTurns(s);
      GoesQuietly(s, Produce(s));
      ProduceAllRuns(Produce(s));
      GoesOn(s, Produce(s), ProduceAll(s));
    }
  }

  lemma {:induction false} GenerateAllRuns(s: State, arrivals: seq<seq<Job>>)
    requires Run(s) && Sane(s) && Offers(arrivals)
    ensures Run(GenerateAll(s, arrivals)) && Goes(s, GenerateAll(s, arrivals))
    decreases |arrivals|
  {
    hide SchedInv, TurnInv, Goes;
    GoesQuietly(s, s);
    if s.tris[s.nextWrite].count == 0 && arrivals != [] {
      var g := Generate(s, arrivals[0]);
      GenerateInv(s, arrivals[0]);
      GenerateTurns(s, arrivals[0]);
      GoesQuietly(s, g);
      GenerateAllRuns(g, arrivals[1..]);
      GoesOn(s, g, GenerateAll(s, arrivals));
    }
  }

  lemma {:induction false} CallRuns(s: State, completed: set<nat>, arrivals: seq<seq<Job>>)
    requires Run(s) && Offers(arrivals)
    ensures Sane(s) && Run(ProcessQueue(s, completed, arrivals)) && Goes(s, ProcessQueue(s, completed, arrivals))
  {
    hide SchedInv, TurnInv, Goes;
    InvIsSane(s);
    var a := Scan(s, completed, 0);
    ScanRuns(s, completed, 0);
    ProduceAllRuns(a);
    GenerateAllRuns(ProduceAll(a), arrivals);
    GoesOn(s, a, ProduceAll(a));
    GoesOn(s, ProduceAll(a), ProcessQueue(s, completed, arrivals));
  }

  lemma {:induction false} ReachRuns(n: nat, calls: seq<Call>)
    requires 1 <= n <= MAX_ACTIVE && Calls(calls)
    ensures Run(Reach(n, calls))
    decreases |calls|
  {
    hide SchedInv, TurnInv, ProcessQueue, Goes;
    if calls == [] {
      InitTurns(n);
    } else {
      var last := calls[|calls| - 1];
      ReachRuns(n, calls[..|calls| - 1]);
      CallRuns(Reach(n, calls[..|calls| - 1]), last.completed, last.arrivals);
    }
  }

  /** The slots of the started blocks, start by start, and of the produced ones: each that was picked is
      the first of those that there were, going down from the one before it and then round from the
      top; the others are successors of a block of their hash that finished right before. */
  lemma {:induction false} SlotsAreTakenInTurn(n: nat, calls: seq<Call>)
    requires 1 <= n <= MAX_ACTIVE && Calls(calls)
    ensures var log := Reach(n, calls).log;
            && InTurn(log.starts) && InTurn(log.places) && |log.places| == |log.made|
            && Slots(log.starts) == StartedIn(log.events, log.places) && HandedOver(log.events, log.starts)
  {
    ReachRuns(n, calls);
  }

  /** A slot has a handler exactly while its block is unfinished. */
  lemma {:induction false} HandlersOfUnfinished(n: nat, calls: seq<Call>, b: nat)
    requires 1 <= n <= MAX_ACTIVE && Calls(calls) && b < SLOTS
    ensures Reach(n, calls).blocks[b].process <==> b !in Reach(n, calls).free
  {
    ReachRuns(n, calls);
  }

  // ---- how long a ready block waits ----

  /** How many of the choices were handed over. */
  function Handed(choices: seq<Choice>): nat {
    if choices == [] then 0 else Handed(choices[..|choices| - 1]) + if choices[|choices| - 1].handed then 1 else 0
  }

  /** Each pick that passes b over comes nearer to it; only a start that is handed over can lead away. */
  lemma {:induction false} NearerByPicks(choices: seq<Choice>, from: nat, b: nat)
    requires InTurn(choices) && from <= |choices| && b < SLOTS && PassedOver(choices, from, b)
    ensures Last(choices) < SLOTS
    ensures var handed := Handed(choices[from..]);
            |choices| - from - handed + Turn(Last(choices), b) <= SLOTS + (SLOTS - 1) * handed
    decreases |choices|
  {
    hide Turn, First, InTurn;
    if choices != [] {
      InTurnBefore(choices);
    }
    if from < |choices| {
      var n := |choices| - 1;
      var front := choices[..n];
      NearerByPicks(front, from, b);
      OneNearer(Last(front), choices[n], b);
      assert choices[from..][..n - from] == front[from..];
    } else {
      assert choices[from..] == [];
      TurnIsBounded(Last(choices), b);
    }
  }

  lemma TurnIsBounded(last: nat, b: nat)
    requires last < SLOTS && b < SLOTS
    ensures 1 <= Turn(last, b) <= SLOTS
  {
  }

  lemma InTurnBefore(choices: seq<Choice>)
    requires InTurn(choices) && choices != []
    ensures var n := |choices| - 1;
            InTurn(choices[..n]) && First(Last(choices[..n]), choices[n]) && Last(choices) < SLOTS
  {
    var n := |choices| - 1;
    var front := choices[..n];
    assert First(Last(front), choices[n]);
    forall k | 0 <= k < |front| ensures First(Last(front[..k]), front[k]) {
      assert front[..k] == choices[..k];
    }
  }

  lemma OneNearer(last: nat, c: Choice, b: nat)
    requires First(last, c) && b < SLOTS && b in c.among && c.slot != b
    ensures 1 <= Turn(c.slot, b) <= SLOTS && 1 <= Turn(last, b) <= SLOTS
    ensures !c.handed ==> Turn(c.slot, b) < Turn(last, b)
  {
    assert !c.handed ==> Turn(last, c.slot) <= Turn(last, b);
  }

  lemma PicksAreFew(choices: seq<Choice>, from: nat, b: nat)
    requires InTurn(choices) && from <= |choices| && b < SLOTS && PassedOver(choices, from, b)
    ensures var since := choices[from..];
            |since| - Handed(since) <= 31 * (1 + Handed(since))
  {
    hide InTurn, Handed, Last, PassedOver;
    NearerByPicks(choices, from, b);
    assert Turn(Last(choices), b) >= 1;
  }

  /** A ready block is started, or it is still ready after at most 31 picks, and another 31 for each
      start that was handed over in the meantime. */
  lemma {:induction false} PassedOverAtMost(n: nat, calls: seq<Call>, more: seq<Call>, b: nat)
    requires 1 <= n <= MAX_ACTIVE && Calls(calls) && Calls(more)
    ensures Calls(calls + more)
    ensures var s, r := Reach(n, calls), Reach(n, calls + more);
            && s.log.starts <= r.log.starts
            && var since := r.log.starts[|s.log.starts|..];
               b in s.ready ==>
                 || (exists k :: 0 <= k < |since| && since[k].slot == b)
                 || (b in r.ready && |since| - Handed(since) <= 31 * (1 + Handed(since)))
  {
    ReachGoes(n, calls, more);
    ReachRuns(n, calls + more);
    var s, r := Reach(n, calls), Reach(n, calls + more);
    hide SchedInv, ProcessQueue, Reach, Goes, InTurn, Handed;
    SinceThen(s, r, b);
  }

  lemma SinceThen(s: State, r: State, b: nat)
    requires Shape(s) && Goes(s, r) && InTurn(r.log.starts)
    ensures s.log.starts <= r.log.starts
    ensures var since := r.log.starts[|s.log.starts|..];
            b in s.ready ==>
              || (exists k :: 0 <= k < |since| && since[k].slot == b)
              || (b in r.ready && |since| - Handed(since) <= 31 * (1 + Handed(since)))
  {
    hide InTurn, Handed;
    var c, from := r.log.starts, |s.log.starts|;
    if b in s.ready {
      if Taken(c, from, b) {
        var k :| from <= k < |c| && c[k].slot == b;
        assert c[from..][k - from].slot == b;
      } else {
        PicksAreFew(c, from, b);
      }
    }
  }

  lemma {:induction false} ReachGoes(n: nat, calls: seq<Call>, more: seq<Call>)
    requires 1 <= n <= MAX_ACTIVE && Calls(calls) && Calls(more)
    ensures Calls(calls + more) && Goes(Reach(n, calls), Reach(n, calls + more))
    decreases |more|
  {
    hide Goes, SchedInv, ProcessQueue, TurnInv;
    GoesQuietly(Reach(n, calls), Reach(n, calls));
    if more == [] {
      assert calls + more == calls;
    } else {
      var front, last := more[..|more| - 1], more[|more| - 1];
      ReachGoes(n, calls, front);
      assert (calls + more)[..|calls + more| - 1] == calls + front;
      ReachRuns(n, calls + front);
      CallRuns(Reach(n, calls + front), last.completed, last.arrivals);
      GoesOn(Reach(n, calls), Reach(n, calls + front), Reach(n, calls + more));
    }
  }
}
