/** What the scheduler may let happen to the blocks of one hash: the events of a hash are at
    every moment a prefix of running its blocks one after the other in production order. */
module SerialOrder {
  import opened QueueState
  import opened HashChains
  import opened LineHeads

  /** The serials of the blocks produced with hash h, in production order. */
  function SerialsOf(made: seq<Job>, h: int): seq<nat> {
    if made == [] then []
    else SerialsOf(made[..|made| - 1], h) +
         if made[|made| - 1].hash == h then [|made| - 1] else []
  }

  /** The events that concern hash h. */
  function EventsOf(events: seq<Event>, h: int): seq<Event> {
    if events == [] then []
    else EventsOf(events[..|events| - 1], h) +
         if events[|events| - 1].hash == h then [events[|events| - 1]] else []
  }

  /** The serials of the finished blocks of hash h, in the order they finished. */
  function FinishedOf(events: seq<Event>, h: int): seq<nat> {
    if events == [] then []
    else var e := events[|events| - 1];
         FinishedOf(events[..|events| - 1], h) +
         if e.Finished? && e.hash == h then [e.serial] else []
  }

  /** Running the blocks of hash h one at a time: each starts and finishes before the next. */
  function OneByOne(h: int, serials: seq<nat>): seq<Event> {
    if serials == [] then []
    else OneByOne(h, serials[..|serials| - 1]) +
         [Started(h, serials[|serials| - 1]), Finished(h, serials[|serials| - 1])]
  }

  function LineSerials(c: Chains, h: int): seq<nat>
    requires Sized(c)
  {
    if h in c.lines
    then seq(|c.lines[h]|, k requires 0 <= k < |c.lines[h]| =>
           if c.lines[h][k] < SLOTS then c.labels[c.lines[h][k]].serial else 0)
    else []
  }

  function RunningOf(c: Chains, active: seq<int>, h: int): seq<Event>
    requires Sized(c)
  {
    if h in c.lines && c.lines[h] != [] && c.lines[h][0] in active && c.lines[h][0] < SLOTS
    then [Started(h, c.labels[c.lines[h][0]].serial)] else []
  }

  /** The blocks of hash h are the finished ones and then the line; the events of h are those
      of the finished blocks run one by one, and the start of the running one. */
  ghost predicate LogInv(c: Chains, active: seq<int>, made: seq<Job>, events: seq<Event>, h: int)
    requires Sized(c)
  {
    && SerialsOf(made, h) == FinishedOf(events, h) + LineSerials(c, h)
    && EventsOf(events, h) == OneByOne(h, FinishedOf(events, h)) + RunningOf(c, active, h)
  }

  lemma {:induction false} SerialsOfAppend(made: seq<Job>, job: Job, h: int)
    ensures SerialsOf(made + [job], h) == SerialsOf(made, h) + if job.hash == h then [|made|] else []
  {
    assert (made + [job])[..|made|] == made;
  }

  lemma {:induction false} EventsAppend(events: seq<Event>, e: Event, h: int)
    ensures EventsOf(events + [e], h) == EventsOf(events, h) + if e.hash == h then [e] else []
    ensures FinishedOf(events + [e], h) ==
            FinishedOf(events, h) + if e.Finished? && e.hash == h then [e.serial] else []
  {
    assert (events + [e])[..|events|] == events;
  }

  lemma {:induction false} OneByOneAppend(h: int, serials: seq<nat>, x: nat)
    ensures OneByOne(h, serials + [x]) == OneByOne(h, serials) + [Started(h, x), Finished(h, x)]
  {
    assert (serials + [x])[..|serials|] == serials;
  }

  lemma {:induction false} OneByOneConcat(h: int, a: seq<nat>, b: seq<nat>)
    ensures OneByOne(h, a + b) == OneByOne(h, a) + OneByOne(h, b)
  {
    if b == [] {
      assert a + b == a;
    } else {
      var front := b[..|b| - 1];
      assert a + b == (a + front) + [b[|b| - 1]];
      OneByOneAppend(h, a + front, b[|b| - 1]);
      OneByOneConcat(h, a, front);
    }
  }

  lemma {:induction false} OneByOneHead(h: int, q: seq<nat>)
    requires q != []
    ensures OneByOne(h, q) != [] && OneByOne(h, q)[0] == Started(h, q[0])
  {
    if |q| > 1 {
      OneByOneHead(h, q[..|q| - 1]);
    }
  }

  // ---- the steps keep LogInv ----

  lemma {:induction false} StartRuns(c: Chains, ready: set<nat>, active: seq<int>, i: nat, b: nat, h: int)
    requires Represented(c) && HeadsRun(c, ready, active) && i < |active| && active[i] == EMPTY && b in ready
    requires b < SLOTS
    ensures RunningOf(c, active[i := b], h) == RunningOf(c, active, h) +
            if h == c.labels[b].hash then [Started(h, c.labels[b].serial)] else []
  {
    assert Head(c, b);
    assert active[i := b][i] == b;
    if h in c.lines && h != c.labels[b].hash {
      var d := c.lines[h][0];
      assert Line(c, h, c.lines[h]);
      if d in active {
        InActive(active, i, b, d);
      }
    }
  }

  lemma {:induction false} StartKeepsLog(c: Chains, ready: set<nat>, active: seq<int>, made: seq<Job>, events: seq<Event>,
                      i: nat, b: nat, h: int)
    requires Represented(c) && HeadsRun(c, ready, active) && i < |active| && active[i] == EMPTY && b in ready
    requires b < SLOTS && LogInv(c, active, made, events, h)
    ensures LogInv(c, active[i := b], made, events + [Started(c.labels[b].hash, c.labels[b].serial)], h)
  {
    EventsAppend(events, Started(c.labels[b].hash, c.labels[b].serial), h);
    StartRuns(c, ready, active, i, b, h);
    assert FinishedOf(events, h) + [] == FinishedOf(events, h);
  }

  lemma {:induction false} FinishOtherLog(c: Chains, active: seq<int>, i: nat, id: nat, h: int)
    requires Represented(c) && i < |active| && active[i] == id < SLOTS && h != c.labels[id].hash
    ensures LineSerials(Pop(c, id), h) == LineSerials(c, h)
    ensures RunningOf(Pop(c, id), active[i := EMPTY], h) == RunningOf(c, active, h)
  {
    if h in c.lines {
      var q := c.lines[h];
      assert Line(c, h, q);
      assert q[0] != id && q[0] != EMPTY;
      hide Represented, Line;
      if q[0] in active {
        InActive(active, i, EMPTY, q[0]);
      }
    }
    hide Represented;
    OtherLinesStay(c, id, h);
  }

  lemma OtherLinesStay(c: Chains, id: nat, h: int)
    requires Sized(c) && id < SLOTS && h != c.labels[id].hash
    ensures h in Pop(c, id).lines <==> h in c.lines
    ensures h in c.lines ==> Pop(c, id).lines[h] == c.lines[h]
    ensures LineSerials(Pop(c, id), h) == LineSerials(c, h)
  {
  }

  lemma {:induction false} FinishOwnLog(c: Chains, ready: set<nat>, active: seq<int>, i: nat, id: nat)
    requires Represented(c) && HeadsRun(c, ready, active) && i < |active| && active[i] == id < SLOTS
    ensures LineSerials(c, c.labels[id].hash) == [c.labels[id].serial] + LineSerials(Pop(c, id), c.labels[id].hash)
    ensures RunningOf(c, active, c.labels[id].hash) == [Started(c.labels[id].hash, c.labels[id].serial)]
  {
    assert Head(c, id);
    var h := c.labels[id].hash;
    assert Line(c, h, c.lines[h]);
    hide Represented, HeadsRun;
    assert c.lines[h][0] == id;
    hide Head, Line;
    PopSerials(c, id);
  }

  lemma {:induction false} PopSerials(c: Chains, id: nat)
    requires Sized(c) && id < SLOTS && c.labels[id].hash in c.lines
    requires c.lines[c.labels[id].hash] != [] && c.lines[c.labels[id].hash][0] == id
    ensures LineSerials(c, c.labels[id].hash) == [c.labels[id].serial] + LineSerials(Pop(c, id), c.labels[id].hash)
  {
  }

  lemma {:induction false} FinishGlue(h: int, serials: seq<nat>, events: seq<Event>, done: seq<nat>, x: nat, line: seq<nat>)
    requires serials == done + ([x] + line) && events == OneByOne(h, done) + [Started(h, x)]
    ensures serials == (done + [x]) + line
    ensures events + [Finished(h, x)] == OneByOne(h, done + [x]) + []
  {
    OneByOneAppend(h, done, x);
  }

  lemma {:induction false} FinishKeepsLog(c: Chains, ready: set<nat>, active: seq<int>, made: seq<Job>, events: seq<Event>,
                       i: nat, id: nat, h: int)
    requires Represented(c) && HeadsRun(c, ready, active) && i < |active| && active[i] == id < SLOTS
    requires LogInv(c, active, made, events, h)
    ensures LogInv(Pop(c, id), active[i := EMPTY], made,
                   events + [Finished(c.labels[id].hash, c.labels[id].serial)], h)
  {
    var x := c.labels[id].serial;
    EventsAppend(events, Finished(c.labels[id].hash, x), h);
    if h == c.labels[id].hash {
      FinishOwnLog(c, ready, active, i, id);
      FinishedRuns(c, ready, active, i, id);
      FinishGlue(h, SerialsOf(made, h), EventsOf(events, h), FinishedOf(events, h), x,
                 LineSerials(Pop(c, id), h));
    } else {
      FinishOtherLog(c, active, i, id, h);
      assert EventsOf(events, h) + [] == EventsOf(events, h);
      assert FinishedOf(events, h) + [] == FinishedOf(events, h);
    }
  }

  /** Right after a block finished, nothing of its hash is running. */
  lemma {:induction false} FinishedRuns(c: Chains, ready: set<nat>, active: seq<int>, i: nat, id: nat)
    requires Represented(c) && HeadsRun(c, ready, active) && i < |active| && active[i] == id < SLOTS
    ensures RunningOf(Pop(c, id), active[i := EMPTY], c.labels[id].hash) == []
  {
    assert Head(c, id);
    HeadIsQueued(c, id);
    PopSuccessor(c, id);
    if c.chained[id] >= 0 {
      NextIsNewHead(c, id);
    }
  }

  lemma {:induction false} ActiveIsNotFree(c: Chains, ready: set<nat>, active: seq<int>, idx: nat)
    requires Represented(c) && HeadsRun(c, ready, active) && idx < SLOTS && idx in c.free
    ensures idx !in active
  {
    if Head(c, idx) {
      HeadIsQueued(c, idx);
    }
  }

  lemma {:induction false} ProduceLines(c: Chains, g: int, idx: nat, serial: nat, h: int)
    requires Represented(c) && idx < SLOTS && idx in c.free && 0 <= g < EMPTY
    ensures LineSerials(Push(c, g, idx, serial), h) == LineSerials(c, h) + if h == g then [serial] else []
  {
    if h in c.lines {
      var q := c.lines[h];
      assert Line(c, h, q);
      assert forall i :: 0 <= i < |q| ==> q[i] != idx;
    }
    hide LowestMatch, ChainTable, Represented, Line;
    PushSerials(c, g, idx, serial, h);
  }

  lemma {:induction false} PushSerials(c: Chains, g: int, idx: nat, serial: nat, h: int)
    requires Sized(c) && idx < SLOTS && (h in c.lines ==> forall i :: 0 <= i < |c.lines[h]| ==> c.lines[h][i] != idx)
    ensures LineSerials(Push(c, g, idx, serial), h) == LineSerials(c, h) + if h == g then [serial] else []
  {
    hide LowestMatch, ChainTable;
  }

  lemma {:induction false} ProduceRuns(c: Chains, ready: set<nat>, active: seq<int>, g: int, idx: nat, serial: nat, h: int)
    requires Represented(c) && HeadsRun(c, ready, active) && idx < SLOTS && idx in c.free && 0 <= g < EMPTY
    ensures RunningOf(Push(c, g, idx, serial), active, h) == RunningOf(c, active, h)
  {
    ActiveIsNotFree(c, ready, active, idx);
    if h in c.lines {
      assert Line(c, h, c.lines[h]);
    }
    hide LowestMatch, ChainTable, Represented, HeadsRun;
  }

  lemma {:induction false} ProduceKeepsLog(c: Chains, ready: set<nat>, active: seq<int>, made: seq<Job>, events: seq<Event>,
                        job: Job, idx: nat, h: int)
    requires Represented(c) && HeadsRun(c, ready, active) && idx < SLOTS && idx in c.free
    requires 0 <= job.hash < EMPTY && LogInv(c, active, made, events, h)
    ensures LogInv(Push(c, job.hash, idx, |made|), active, made + [job], events, h)
  {
    SerialsOfAppend(made, job, h);
    ProduceLines(c, job.hash, idx, |made|, h);
    ProduceRuns(c, ready, active, job.hash, idx, |made|, h);
  }

  /** The events of hash h are a prefix of running its blocks one by one. */
  lemma {:induction false} EventsArePrefix(c: Chains, active: seq<int>, made: seq<Job>, events: seq<Event>, h: int)
    requires Represented(c) && LogInv(c, active, made, events, h)
    ensures EventsOf(events, h) <= OneByOne(h, SerialsOf(made, h))
  {
    var line := LineSerials(c, h);
    OneByOneConcat(h, FinishedOf(events, h), line);
    if h in c.lines {
      assert Line(c, h, c.lines[h]);
      OneByOneHead(h, line);
    }
  }

  /** When nothing of hash h is left, all its blocks have run to the end. */
  lemma {:induction false} EventsComplete(c: Chains, active: seq<int>, made: seq<Job>, events: seq<Event>, h: int)
    requires Sized(c) && LogInv(c, active, made, events, h) && h !in c.lines
    ensures EventsOf(events, h) == OneByOne(h, SerialsOf(made, h))
  {
    assert FinishedOf(events, h) + [] == FinishedOf(events, h);
    assert EventsOf(events, h) == OneByOne(h, FinishedOf(events, h)) + [];
  }
}
