/** A flush is acknowledged only for the queue that was flushed: each acknowledgement of an allocation
    uses up a request for it and a notification of its own slot. */
module ConnectionNotices {
  import opened Connection
  import opened ConnectionRuns

  /** The allocation is the client's command queue in the slot. */
  predicate QueueIn(a: Allocation, slot: nat) {
    Slot(a.id) == slot && a.queue
  }

  /** The SPU's notification marks the listed command queue in that slot as done, and nothing else; if
      there is none it changes nothing. */
  lemma {:induction false} NoticeMarks(counts: seq<int>, run: seq<Event>, slot: nat)
    requires |counts| == SLOTS
    ensures var s := After(counts, run);
            var r := Next(s, Done(slot));
            && |r.list| == |s.list|
            && (forall i :: 0 <= i < |s.list| ==> r.list[i] == if QueueIn(s.list[i], slot) then s.list[i].(done := true) else s.list[i])
            && r == s.(list := r.list)
  {
    var s := After(counts, run);
    InvParts(s);
    hide ConnectionRuns.Inv, After;
    OnlyOneInSlot(s, slot);
  }

  lemma OnlyOneInSlot(s: State, slot: nat)
    requires Distinct(s.list)
    ensures var r := FlushDone(s, slot);
            && |r.list| == |s.list|
            && (forall i :: 0 <= i < |s.list| ==> r.list[i] == if QueueIn(s.list[i], slot) then s.list[i].(done := true) else s.list[i])
            && r == s.(list := r.list)
  {
    var k := FirstInSlot(s.list, slot, 0);
    assert forall i :: 0 <= i < |s.list| ==> (QueueIn(s.list[i], slot) <==> i == k);
  }

  // ---- one allocation's flushes over a run ----

  /** Allocation n is listed as the queue in that slot when the notification comes. */
  predicate Noticed(s: State, e: Event, n: nat) {
    e.Done? && exists i :: 0 <= i < |s.list| && s.list[i].serial == n && QueueIn(s.list[i], e.slot)
  }

  /** It is listed as the queue with that id when the flush is asked for. */
  predicate Asked(s: State, e: Event, n: nat) {
    s.open && e.Flush? && exists i :: 0 <= i < |s.list| && s.list[i].serial == n && s.list[i].id == e.id && s.list[i].queue
  }

  /** Its flush is acknowledged. */
  predicate Answered(s: State, e: Event, n: nat) {
    e.Process? && exists i :: 0 <= i < |s.list| && s.list[i].serial == n && Flushed(s.list[i])
  }

  predicate IsDone(list: seq<Allocation>, n: nat) {
    exists i :: 0 <= i < |list| && list[i].serial == n && list[i].done
  }

  predicate IsWaiting(list: seq<Allocation>, n: nat) {
    exists i :: 0 <= i < |list| && list[i].serial == n && list[i].waiting
  }

  /** How often each has happened to allocation n in a run. */
  datatype Tally = Tally(notices: nat, requests: nat, answers: nat)

  function One(b: bool): nat {
    if b then 1 else 0
  }

  ghost function Tallied(counts: seq<int>, run: seq<Event>, n: nat): Tally
    requires |counts| == SLOTS
  {
    if run == [] then Tally(0, 0, 0)
    else
      var t := Tallied(counts, run[..|run| - 1], n);
      var s, e := After(counts, run[..|run| - 1]), run[|run| - 1];
      Tally(t.notices + One(Noticed(s, e, n)), t.requests + One(Asked(s, e, n)), t.answers + One(Answered(s, e, n)))
  }

  /** What one event does to the two flags of allocation n. */
  ghost predicate Balances(s: State, e: Event, r: State, n: nat) {
    && One(IsDone(r.list, n)) + One(Answered(s, e, n)) <= One(IsDone(s.list, n)) + One(Noticed(s, e, n))
    && One(IsWaiting(r.list, n)) + One(Answered(s, e, n)) <= One(IsWaiting(s.list, n)) + One(Asked(s, e, n))
  }

  lemma {:induction false} SerialsDiffer(s: State, i: nat, j: nat)
    requires ConnectionRuns.Inv(s) && i < j < |s.list|
    ensures s.list[i].serial != s.list[j].serial && s.list[i].serial < s.made && s.list[j].serial < s.made
  {
    var q := Serials(s.list);
    hide Distinct, AllCounted;
    var a: nat, b: nat := q[i], q[j];
    assert a in multiset(q) && b in multiset(q);
    assert multiset(q)[a] + multiset(s.unmapped)[a] == if a < s.made then 1 else 0;
    assert multiset(q)[b] + multiset(s.unmapped)[b] == if b < s.made then 1 else 0;
    if a == b {
      TwiceInMultiset(q, i, j);
    }
  }

  lemma TwiceInMultiset(q: seq<nat>, i: nat, j: nat)
    requires i < j < |q| && q[i] == q[j]
    ensures multiset(q)[q[i]] >= 2
  {
    assert q == q[..i] + [q[i]] + q[i + 1..j] + [q[j]] + q[j + 1..];
  }

  /** Entries that keep serial and flags keep the flags of every allocation. */
  lemma SameFlags(p: seq<Allocation>, q: seq<Allocation>, n: nat)
    requires |p| == |q|
    requires forall i :: 0 <= i < |p| ==> q[i].serial == p[i].serial && q[i].done == p[i].done && q[i].waiting == p[i].waiting
    ensures IsDone(q, n) == IsDone(p, n) && IsWaiting(q, n) == IsWaiting(p, n)
  {
    if IsDone(q, n) { var i :| 0 <= i < |q| && q[i].serial == n && q[i].done; assert p[i].serial == n; }
    if IsDone(p, n) { var i :| 0 <= i < |p| && p[i].serial == n && p[i].done; assert q[i].serial == n; }
    if IsWaiting(q, n) { var i :| 0 <= i < |q| && q[i].serial == n && q[i].waiting; assert p[i].serial == n; }
    if IsWaiting(p, n) { var i :| 0 <= i < |p| && p[i].serial == n && p[i].waiting; assert q[i].serial == n; }
  }

  lemma DoneBalances(s: State, slot: nat, n: nat)
    ensures Balances(s, Done(slot), FlushDone(s, slot), n)
  {
    var r := FlushDone(s, slot);
    var k := FirstInSlot(s.list, slot, 0);
    if k < |s.list| {
      if IsDone(r.list, n) {
        var i :| 0 <= i < |r.list| && r.list[i].serial == n && r.list[i].done;
        assert s.list[i].serial == n;
        assert i == k ==> QueueIn(s.list[i], slot);
      }
      if IsWaiting(r.list, n) {
        var i :| 0 <= i < |r.list| && r.list[i].serial == n && r.list[i].waiting;
        assert s.list[i].serial == n && s.list[i].waiting;
      }
    }
  }

  lemma FlushBalances(s: State, id: nat, n: nat)
    requires s.open
    ensures Balances(s, Flush(id), FlushRequest(s, id), n)
  {
    var r := FlushRequest(s, id);
    var k := FirstQueue(s.list, id, 0);
    if k < |s.list| {
      if IsDone(r.list, n) {
        var i :| 0 <= i < |r.list| && r.list[i].serial == n && r.list[i].done;
        assert s.list[i].serial == n && s.list[i].done;
      }
      if IsWaiting(r.list, n) {
        var i :| 0 <= i < |r.list| && r.list[i].serial == n && r.list[i].waiting;
        assert s.list[i].serial == n;
      }
    }
  }

  lemma ProcessBalances(s: State, n: nat)
    requires ConnectionRuns.Inv(s)
    ensures Balances(s, Process, Processed(s), n)
  {
    KeptIsFrom(s.list, s.counts);
    var kept := Kept(s.list, s.counts);
    forall i | 0 <= i < |kept| && kept[i].serial == n && (kept[i].done || kept[i].waiting)
      ensures !Answered(s, Process, n)
      ensures kept[i].done ==> IsDone(s.list, n)
      ensures kept[i].waiting ==> IsWaiting(s.list, n)
    {
      assert From(kept[i], s.list, s.counts);
      hide Kept, ConnectionRuns.Inv;
      var j :| 0 <= j < |s.list| && InUse(s.list[j], s.counts) && kept[i] == Acknowledge(s.list[j]);
      assert s.list[j].serial == n && !(kept[i].done && kept[i].waiting);
      if Answered(s, Process, n) {
        var k :| 0 <= k < |s.list| && s.list[k].serial == n && Flushed(s.list[k]);
        OnlyEntry(s, j, k);
      }
    }
    hide Kept, ConnectionRuns.Inv;
  }

  lemma OnlyEntry(s: State, j: nat, k: nat)
    requires ConnectionRuns.Inv(s) && j < |s.list| && k < |s.list| && s.list[j].serial == s.list[k].serial
    ensures j == k
  {
    if j < k {
      SerialsDiffer(s, j, k);
    } else if k < j {
      SerialsDiffer(s, k, j);
    }
  }

  lemma AllocateBalances(s: State, queue: bool, high: nat, n: nat)
    requires |s.counts| == SLOTS
    ensures Balances(s, Allocate(queue, high), Allocated(s, queue, high), n)
  {
    var r := Allocated(s, queue, high);
    hide LowestFree;
    if IsDone(r.list, n) {
      var i :| 0 <= i < |r.list| && r.list[i].serial == n && r.list[i].done;
      if r.list != s.list {
        assert r.list[i] == s.list[i - 1];
      }
    }
    if IsWaiting(r.list, n) {
      var i :| 0 <= i < |r.list| && r.list[i].serial == n && r.list[i].waiting;
      if r.list != s.list {
        assert r.list[i] == s.list[i - 1];
      }
    }
  }

  lemma NextBalances(s: State, e: Event, n: nat)
    requires ConnectionRuns.Inv(s)
    ensures Balances(s, e, Next(s, e), n)
  {
    InvParts(s);
    hide ConnectionRuns.Inv, Balances, Processed, FlushDone, FlushRequest, Allocated;
    if !Possible(s, e) {
      QuietBalances(s, e, s, n);
    } else {
      match e
      case Allocate(queue, high) => AllocateBalances(s, queue, high, n);
      case Free(id) =>
        SameFlags(s.list, FreeRequest(s, id).list, n);
        QuietBalances(s, e, FreeRequest(s, id), n);
      case Flush(id) => FlushBalances(s, id, n);
      case Done(slot) => DoneBalances(s, slot, n);
      case Disconnect =>
        SameFlags(s.list, DisposeAll(s.list), n);
        QuietBalances(s, e, Disconnected(s), n);
      case Process => ProcessBalances(s, n);
      case _ => QuietBalances(s, e, Next(s, e), n);
    }
  }

  lemma QuietBalances(s: State, e: Event, r: State, n: nat)
    requires !e.Process? && IsDone(r.list, n) == IsDone(s.list, n) && IsWaiting(r.list, n) == IsWaiting(s.list, n)
    ensures Balances(s, e, r, n)
  {
    hide IsDone, IsWaiting;
  }

  /** In every run: a flush of allocation n is acknowledged at most as often as the SPU has notified the
      server of that queue, and at most as often as the client has asked for it. */
  lemma {:induction false} AnsweredAfterNotice(counts: seq<int>, run: seq<Event>, n: nat)
    requires |counts| == SLOTS
    ensures var t := Tallied(counts, run, n);
            t.answers <= t.notices && t.answers <= t.requests
  {
    TallyBalances(counts, run, n);
  }

  lemma {:induction false} TallyBalances(counts: seq<int>, run: seq<Event>, n: nat)
    requires |counts| == SLOTS
    ensures var t, s := Tallied(counts, run, n), After(counts, run);
            t.answers + One(IsDone(s.list, n)) <= t.notices && t.answers + One(IsWaiting(s.list, n)) <= t.requests
    decreases |run|
  {
    if run == [] {
      assert After(counts, run).list == [];
    } else {
      var before, e := After(counts, run[..|run| - 1]), run[|run| - 1];
      hide ConnectionRuns.Inv, Next, IsDone, IsWaiting, Noticed, Asked, Answered;
      TallyBalances(counts, run[..|run| - 1], n);
      NextBalances(before, e, n);
    }
  }
}
