/** What the server keeps of a client: its allocations, disposed of once each, by request or when
    the client is gone, and given back when nobody uses them any more. */
module Connection {
  import BufferLifetime

  const SLOTS: nat := BufferLifetime.SLOTS
  const QUEUES: nat := BufferLifetime.QUEUES

  /** The flags of an allocation; `serial` and `drops` are history: which allocation it is and how
      often its count has been dropped. */
  datatype Allocation = Allocation(id: nat, queue: bool, waiting: bool, done: bool, disposed: bool, serial: nat, drops: nat)

  function Slot(id: nat): (k: nat)
    ensures k < SLOTS
  {
    id % SLOTS
  }

  // ---- what the requests do ----

  /** The references that the client's allocations hold to slot k. */
  function Live(list: seq<Allocation>, k: nat): nat {
    if list == [] then 0
    else Live(list[..|list| - 1], k) + if Slot(list[|list| - 1].id) == k && !list[|list| - 1].disposed then 1 else 0
  }

  function Dispose(a: Allocation): Allocation {
    if a.disposed then a else a.(disposed := true, drops := a.drops + 1)
  }

  function DisposeAll(list: seq<Allocation>): seq<Allocation> {
    seq(|list|, i requires 0 <= i < |list| => Dispose(list[i]))
  }

  /** The first allocation from i on with the id that has not been disposed of, or the length. */
  function FirstLive(list: seq<Allocation>, id: nat, i: nat): (r: nat)
    requires i <= |list|
    ensures i <= r <= |list| && (r < |list| ==> list[r].id == id && !list[r].disposed)
    ensures forall j :: i <= j < r ==> list[j].id != id || list[j].disposed
    decreases |list| - i
  {
    if i == |list| then i else if list[i].id == id && !list[i].disposed then i else FirstLive(list, id, i + 1)
  }

  function FirstQueue(list: seq<Allocation>, id: nat, i: nat): (r: nat)
    requires i <= |list|
    ensures i <= r <= |list| && (r < |list| ==> list[r].id == id && list[r].queue)
    ensures forall j :: i <= j < r ==> list[j].id != id || !list[j].queue
    decreases |list| - i
  {
    if i == |list| then i else if list[i].id == id && list[i].queue then i else FirstQueue(list, id, i + 1)
  }

  predicate Flushed(a: Allocation) {
    a.waiting && a.done
  }

  function Acknowledge(a: Allocation): Allocation {
    if Flushed(a) then a.(waiting := false, done := false) else a
  }

  predicate InUse(a: Allocation, counts: seq<int>)
    requires |counts| == SLOTS
  {
    counts[Slot(a.id)] > 0
  }

  /** What is left, what is given back, and how many flushes are acknowledged. */
  function Kept(list: seq<Allocation>, counts: seq<int>): seq<Allocation>
    requires |counts| == SLOTS
  {
    if list == [] then []
    else Kept(list[..|list| - 1], counts) + if InUse(list[|list| - 1], counts) then [Acknowledge(list[|list| - 1])] else []
  }

  function Freed(list: seq<Allocation>, counts: seq<int>): seq<nat>
    requires |counts| == SLOTS
  {
    if list == [] then []
    else Freed(list[..|list| - 1], counts) + if InUse(list[|list| - 1], counts) then [] else [list[|list| - 1].serial]
  }

  function Acks(list: seq<Allocation>): nat {
    if list == [] then 0 else Acks(list[..|list| - 1]) + if Flushed(list[|list| - 1]) then 1 else 0
  }

  /** The count of slot k when all of the list has been looked at. */
  function CountAfter(list: seq<Allocation>, counts: seq<int>, k: nat): int
    requires |counts| == SLOTS && k < SLOTS
  {
    if counts[k] <= 0 && exists i :: 0 <= i < |list| && Slot(list[i].id) == k then -1 else counts[k]
  }

  /** The server's side of a connection, with the shared table of counts. */
  class Client {
    var open: bool
    var list: seq<Allocation>
    var counts: seq<int>
    var acks: nat
    var unmapped: seq<nat>

    constructor (counts: seq<int>)
      ensures open && list == [] && this.counts == counts && acks == 0 && unmapped == []
    {
      open, list, this.counts, acks, unmapped := true, [], counts, 0, [];
    }

    /** Every allocation that has not been disposed of is, and its count dropped. */
    method HandleDisconnect()
      requires |counts| == SLOTS
      modifies this`open, this`list, this`counts
      ensures !open && list == DisposeAll(old(list)) && |counts| == SLOTS
      ensures forall k :: 0 <= k < SLOTS ==> counts[k] == old(counts[k]) - Live(old(list), k)
    {
      hide Live, DisposeAll;
      ghost var was := list;
      NothingDone(was, counts);
      var i := 0;
      while i < |list|
        invariant 0 <= i <= |list| == |was| && |counts| == SLOTS
        invariant list == DisposeAll(was[..i]) + was[i..]
        invariant forall k :: 0 <= k < SLOTS ==> counts[k] == old(counts[k]) - Live(was[..i], k)
      {
        DisposeStep(was, list, i);
        if !list[i].disposed {
          list := list[i := list[i].(disposed := true, drops := list[i].drops + 1)];
          counts := counts[Slot(list[i].id) := counts[Slot(list[i].id)] - 1];
        }
        i := i + 1;
      }
      assert was[..i] == was;
      open := false;
    }

    /** At most one allocation is disposed of: the first with the id that has not been before. */
    method FreeBuffer(id: nat)
      requires |counts| == SLOTS
      modifies this`list, this`counts
      ensures var i := FirstLive(old(list), id, 0);
              if i == |old(list)| then list == old(list) && counts == old(counts)
              else
                && list == old(list)[i := Dispose(old(list)[i])]
                && counts == old(counts)[Slot(id) := old(counts)[Slot(id)] - 1]
    {
      var i := 0;
      while i < |list|
        invariant 0 <= i <= |list| && list == old(list) && counts == old(counts)
        invariant FirstLive(list, id, 0) == FirstLive(list, id, i)
      {
        if list[i].id == id && !list[i].disposed {
          list := list[i := list[i].(disposed := true, drops := list[i].drops + 1)];
          counts := counts[Slot(id) := counts[Slot(id)] - 1];
          return;
        }
        i := i + 1;
      }
    }

    /** A flush of a queue of the client's waits; any other is acknowledged at once. */
    method FlushQueue(id: nat)
      modifies this`list, this`acks
      ensures var i := FirstQueue(old(list), id, 0);
              if i == |old(list)| then list == old(list) && acks == old(acks) + 1
              else list == old(list)[i := old(list)[i].(waiting := true)] && acks == old(acks)
    {
      var i := 0;
      while i < |list|
        invariant 0 <= i <= |list| && list == old(list) && acks == old(acks)
        invariant FirstQueue(list, id, 0) == FirstQueue(list, id, i)
      {
        if list[i].id == id && list[i].queue {
          list := list[i := list[i].(waiting := true)];
          return;
        }
        i := i + 1;
      }
      acks := acks + 1;
    }

    /** Acknowledges what is flushed, and gives back what nobody uses, unlinking it on the way. */
    method ProcessOutstanding()
      requires |counts| == SLOTS
      modifies this`list, this`counts, this`acks, this`unmapped
      ensures list == Kept(old(list), old(counts)) && unmapped == old(unmapped) + Freed(old(list), old(counts))
      ensures acks == old(acks) + if open then Acks(old(list)) else 0
      ensures |counts| == SLOTS && forall k :: 0 <= k < SLOTS ==> counts[k] == CountAfter(old(list), old(counts), k)
    {
      hide Kept, Freed, Acks, InUse, CountsAre, Slot;
      ghost var was, n := list, 0;
      NothingDone(was, counts);
      var i := 0;
      while i < |list|
        invariant 0 <= i <= |list| && n <= |was| && |counts| == SLOTS
        invariant list[i..] == was[n..] && list[..i] == Kept(was[..n], old(counts))
        invariant unmapped == old(unmapped) + Freed(was[..n], old(counts))
        invariant acks == old(acks) + if open then Acks(was[..n]) else 0
        invariant CountsAre(counts, was[..n], old(counts))
        decreases |was| - n
      {
        var a := list[i];
        assert a == was[n];
        CountsLookedAt(was, old(counts), counts, n);
        ListLookedAt(was, old(counts), n);
        Unlink(was, n, list, i);
        ghost var d := list[i := Acknowledge(a)];
        if a.waiting && a.done {
          list := list[i := a.(waiting := false, done := false)];
          if open {
            acks := acks + 1;
          }
        }
        assert list == d;
        if counts[Slot(a.id)] > 0 {
          i := i + 1;
        } else {
          counts := counts[Slot(a.id) := -1];
          list := list[..i] + list[i + 1..];
          unmapped := unmapped + [a.serial];
        }
        n := n + 1;
      }
      assert was[..n] == was && list[..i] == list;
      CountsAreThose(counts, was, old(counts));
    }
  }

  /** The counts after the allocations of `list` have been looked at. */
  ghost predicate CountsAre(counts: seq<int>, list: seq<Allocation>, before: seq<int>)
    requires |counts| == |before| == SLOTS
  {
    forall k :: 0 <= k < SLOTS ==> counts[k] == CountAfter(list, before, k)
  }

  lemma CountsAreThose(counts: seq<int>, list: seq<Allocation>, before: seq<int>)
    requires |counts| == |before| == SLOTS && CountsAre(counts, list, before)
    ensures forall k :: 0 <= k < SLOTS ==> counts[k] == CountAfter(list, before, k)
  {
  }

  lemma NothingDone(list: seq<Allocation>, counts: seq<int>)
    requires |counts| == SLOTS
    ensures DisposeAll(list[..0]) + list[0..] == list && forall k :: Live(list[..0], k) == 0
    ensures Kept(list[..0], counts) == [] && Freed(list[..0], counts) == [] && Acks(list[..0]) == 0
    ensures CountsAre(counts, list[..0], counts)
  {
  }

  lemma DisposeStep(list: seq<Allocation>, now: seq<Allocation>, i: nat)
    requires i < |list| && now == DisposeAll(list[..i]) + list[i..]
    ensures now[i] == list[i] && DisposeAll(list[..i + 1]) + list[i + 1..] == now[i := Dispose(list[i])]
    ensures forall k :: Live(list[..i + 1], k) == Live(list[..i], k) + if Slot(list[i].id) == k && !list[i].disposed then 1 else 0
  {
    assert list[..i + 1][..i] == list[..i];
  }

  lemma ListLookedAt(list: seq<Allocation>, counts: seq<int>, n: nat)
    requires n < |list| && |counts| == SLOTS
    ensures Kept(list[..n + 1], counts) == Kept(list[..n], counts) + if counts[Slot(list[n].id)] > 0 then [Acknowledge(list[n])] else []
    ensures Freed(list[..n + 1], counts) == Freed(list[..n], counts) + if counts[Slot(list[n].id)] > 0 then [] else [list[n].serial]
    ensures Acks(list[..n + 1]) == Acks(list[..n]) + if Flushed(list[n]) then 1 else 0
  {
    assert list[..n + 1][..n] == list[..n];
  }

  /** The list with its entry i updated, or unlinked. */
  lemma Unlink(was: seq<Allocation>, n: nat, list: seq<Allocation>, i: nat)
    requires n < |was| && i < |list| && list[i..] == was[n..]
    ensures var d := list[i := Acknowledge(list[i])]; d[i + 1..] == was[n + 1..] && d[..i + 1] == list[..i] + [Acknowledge(list[i])]
    ensures var d := list[i := Acknowledge(list[i])]; (d[..i] + d[i + 1..])[i..] == was[n + 1..] && (d[..i] + d[i + 1..])[..i] == list[..i]
  {
    assert list[i + 1..] == list[i..][1..];
    assert was[n + 1..] == was[n..][1..];
  }

  /** Looking at one more allocation: its count decides, and it is still what it was unless it has
      just been found to be unused. */
  lemma CountsLookedAt(list: seq<Allocation>, counts: seq<int>, now: seq<int>, n: nat)
    requires n < |list| && |counts| == |now| == SLOTS && CountsAre(now, list[..n], counts)
    ensures var k := Slot(list[n].id);
            && (now[k] > 0 <==> counts[k] > 0)
            && CountsAre(if now[k] > 0 then now else now[k := -1], list[..n + 1], counts)
  {
    forall k | 0 <= k < SLOTS
      ensures CountAfter(list[..n + 1], counts, k) ==
              if k == Slot(list[n].id) && counts[k] <= 0 then -1 else CountAfter(list[..n], counts, k)
    {
      if i :| 0 <= i < n && Slot(list[i].id) == k {
        assert list[..n][i] == list[..n + 1][i] == list[i];
      }
      assert list[..n + 1][n] == list[n];
    }
  }
}
