/** What becomes of a client's flush requests: each is acknowledged once, is still waiting, was one of
    several for the same queue, or went with its queue. */
module ConnectionFlushes {
  import opened Connection
  import opened ConnectionRuns

  /** History: flushes asked for; acknowledgements sent; flushes of a queue that was waiting already;
      flushes whose queue or whose client was gone before they could be acknowledged. */
  datatype Ledger = Ledger(asked: nat, acks: nat, merged: nat, lost: nat)

  function Waiting(list: seq<Allocation>): nat {
    if list == [] then 0 else Waiting(list[..|list| - 1]) + if list[|list| - 1].waiting then 1 else 0
  }

  /** The allocations given back while a flush of them was waiting and not done. */
  function Dropped(list: seq<Allocation>, counts: seq<int>): nat
    requires |counts| == SLOTS
  {
    if list == [] then 0
    else
      var a := list[|list| - 1];
      Dropped(list[..|list| - 1], counts) + if !InUse(a, counts) && a.waiting && !a.done then 1 else 0
  }

  ghost function Entry(s: State, e: Event, l: Ledger): Ledger
    requires |s.counts| == |s.held| == SLOTS
  {
    if !Possible(s, e) then l
    else match e
         case Flush(id) =>
           var i := FirstQueue(s.list, id, 0);
           if i == |s.list| then l.(asked := l.asked + 1, acks := l.acks + 1)
           else if s.list[i].waiting then l.(asked := l.asked + 1, merged := l.merged + 1)
           else l.(asked := l.asked + 1)
         case Process =>
           if s.open then l.(acks := l.acks + Acks(s.list), lost := l.lost + Dropped(s.list, s.counts))
           else l.(lost := l.lost + Acks(s.list) + Dropped(s.list, s.counts))
         case _ => l
  }

  ghost function Entries(counts: seq<int>, run: seq<Event>): Ledger
    requires |counts| == SLOTS
  {
    if run == [] then Ledger(0, 0, 0, 0)
    else Entry(After(counts, run[..|run| - 1]), run[|run| - 1], Entries(counts, run[..|run| - 1]))
  }

  ghost predicate Balanced(l: Ledger, list: seq<Allocation>) {
    l.asked == l.acks + l.merged + l.lost + Waiting(list)
  }

  lemma {:induction false} WaitingPut(list: seq<Allocation>, i: nat, a: Allocation)
    requires i < |list|
    ensures Waiting(list[i := a]) + (if list[i].waiting then 1 else 0) == Waiting(list) + if a.waiting then 1 else 0
  {
    var n := |list| - 1;
    if i < n {
      assert list[i := a][..n] == list[..n][i := a];
      WaitingPut(list[..n], i, a);
    } else {
      assert list[i := a][..n] == list[..n];
    }
  }

  lemma {:induction false} WaitingSame(list: seq<Allocation>, other: seq<Allocation>)
    requires |list| == |other| && forall i :: 0 <= i < |list| ==> list[i].waiting == other[i].waiting
    ensures Waiting(list) == Waiting(other)
  {
    if list != [] {
      WaitingSame(list[..|list| - 1], other[..|list| - 1]);
    }
  }

  lemma {:induction false} WaitingBehind(a: Allocation, list: seq<Allocation>)
    requires !a.waiting
    ensures Waiting([a] + list) == Waiting(list)
  {
    if list == [] {
      assert ([a] + list)[..0] == [];
    } else {
      var n := |list| - 1;
      assert ([a] + list)[..|list|] == [a] + list[..n];
      WaitingBehind(a, list[..n]);
    }
  }

  lemma {:induction false} WaitingOne(list: seq<Allocation>, a: Allocation)
    ensures Waiting(list + [a]) == Waiting(list) + if a.waiting then 1 else 0
  {
    assert (list + [a])[..|list|] == list;
  }

  /** Clearing up acknowledges, keeps or drops each waiting flush. */
  lemma {:induction false} WaitingCleared(list: seq<Allocation>, counts: seq<int>)
    requires |counts| == SLOTS
    ensures Waiting(list) == Waiting(Kept(list, counts)) + Acks(list) + Dropped(list, counts)
  {
    if list != [] {
      var rest, a := list[..|list| - 1], list[|list| - 1];
      WaitingCleared(rest, counts);
      WaitingOne(Kept(rest, counts), Acknowledge(a));
      assert Kept(list, counts) == if InUse(a, counts) then Kept(rest, counts) + [Acknowledge(a)] else Kept(rest, counts);
    }
  }

  lemma {:induction false} EntryBalances(s: State, e: Event, l: Ledger)
    requires Inv(s) && Balanced(l, s.list)
    ensures Balanced(Entry(s, e, l), Next(s, e).list)
  {
    hide Kept, Freed, Waiting, Acks, Dropped;
    match e
    case Allocate(queue, high) =>
      var r := Allocated(s, queue, high);
      if r != s {
        WaitingBehind(r.list[0], s.list);
      }
    case Free(id) =>
      var i := FirstLive(s.list, id, 0);
      if i < |s.list| {
        WaitingPut(s.list, i, Dispose(s.list[i]));
      }
    case Flush(id) =>
      var i := FirstQueue(s.list, id, 0);
      if i < |s.list| {
        WaitingPut(s.list, i, s.list[i].(waiting := true));
      }
    case Done(slot) =>
      var i := FirstInSlot(s.list, slot, 0);
      if i < |s.list| {
        WaitingPut(s.list, i, s.list[i].(done := true));
      }
    case Disconnect => WaitingSame(s.list, DisposeAll(s.list));
    case Process => WaitingCleared(s.list, s.counts);
    case _ =>
  }

  /** In every run: each flush that was asked for has been acknowledged, once, or is waiting; but for
      those that met a queue waiting already, and those whose queue or client went before. */
  lemma {:induction false} FlushesAreAccountedFor(counts: seq<int>, run: seq<Event>)
    requires |counts| == SLOTS
    ensures Balanced(Entries(counts, run), After(counts, run).list)
    decreases |run|
  {
    if run != [] {
      hide Balanced, Entry, Next;
      FlushesAreAccountedFor(counts, run[..|run| - 1]);
      EntryBalances(After(counts, run[..|run| - 1]), run[|run| - 1], Entries(counts, run[..|run| - 1]));
    } else {
      assert After(counts, run).list == [];
    }
  }
}
