/** Whole lives of a connection: requests, the SPU's locks and the server's clearing up, in any
    order. Every allocation is disposed of at most once and given back once. */
module ConnectionRuns {
  import opened Connection

  /** The server's side, and history: how many locks the SPU holds on each slot, and the number of
      allocations made. */
  datatype State = State(open: bool, list: seq<Allocation>, counts: seq<int>, unmapped: seq<nat>, held: seq<nat>, made: nat)

  datatype Event =
    | Allocate(queue: bool, high: nat)
    | Free(id: nat)
    | Flush(id: nat)
    | Done(slot: nat)
    | Disconnect
    | Process
    | Lock(slot: nat)
    | Unlock(slot: nat)
    | Others(counts: seq<int>)

  /** Room for a buffer: command queues have the first 16 slots, data the rest. The table is gone
      through word by word, which finds the lowest free slot. */
  function LowestFree(counts: seq<int>, k: nat, end: nat): (r: nat)
    requires |counts| == SLOTS && k <= end <= SLOTS
    ensures k <= r <= end && (r < end ==> counts[r] < 0) && forall j :: k <= j < r ==> counts[j] >= 0
    decreases end - k
  {
    if k == end || counts[k] < 0 then k else LowestFree(counts, k + 1, end)
  }

  /** The bottom bits of an id are its slot; `high` is what rand put above them. */
  function MakeId(slot: nat, high: nat): nat {
    slot + high * 0x1_0000
  }

  function Allocated(s: State, queue: bool, high: nat): State
    requires |s.counts| == SLOTS
  {
    var end := if queue then QUEUES else SLOTS;
    var k := LowestFree(s.counts, if queue then 0 else QUEUES, end);
    if k == end then s
    else s.(list := [Allocation(MakeId(k, high), queue, false, false, false, s.made, 0)] + s.list,
            counts := s.counts[k := 1], made := s.made + 1)
  }

  function FreeRequest(s: State, id: nat): State
    requires |s.counts| == SLOTS
  {
    var i := FirstLive(s.list, id, 0);
    if i == |s.list| then s
    else s.(list := s.list[i := Dispose(s.list[i])], counts := s.counts[Slot(id) := s.counts[Slot(id)] - 1])
  }

  function FlushRequest(s: State, id: nat): State {
    var i := FirstQueue(s.list, id, 0);
    if i == |s.list| then s else s.(list := s.list[i := s.list[i].(waiting := true)])
  }

  /** receivedFlush: the first queue in the slot. */
  function FirstInSlot(list: seq<Allocation>, slot: nat, i: nat): (r: nat)
    requires i <= |list|
    ensures i <= r <= |list| && (r < |list| ==> Slot(list[r].id) == slot && list[r].queue)
    ensures forall j :: i <= j < r ==> Slot(list[j].id) != slot || !list[j].queue
    decreases |list| - i
  {
    if i == |list| || (Slot(list[i].id) == slot && list[i].queue) then i else FirstInSlot(list, slot, i + 1)
  }

  function FlushDone(s: State, slot: nat): State {
    var i := FirstInSlot(s.list, slot, 0);
    if i == |s.list| then s else s.(list := s.list[i := s.list[i].(done := true)])
  }

  function Disconnected(s: State): State
    requires |s.counts| == SLOTS
  {
    s.(open := false, list := DisposeAll(s.list),
       counts := seq(SLOTS, k requires 0 <= k < SLOTS => s.counts[k] - Live(s.list, k)))
  }

  function Processed(s: State): State
    requires |s.counts| == SLOTS
  {
    s.(list := Kept(s.list, s.counts), unmapped := s.unmapped + Freed(s.list, s.counts),
       counts := seq(SLOTS, k requires 0 <= k < SLOTS => CountAfter(s.list, s.counts, k)))
  }

  /** The client asks for nothing after it is gone; the SPU locks what is in use and unlocks what
      it has locked; other clients change what is not this client's. */
  ghost predicate Possible(s: State, e: Event)
    requires |s.counts| == |s.held| == SLOTS
  {
    match e
    case Allocate(_, _) => s.open
    case Free(_) => s.open
    case Flush(_) => s.open
    case Done(_) => true
    case Disconnect => s.open
    case Process => true
    case Lock(k) => k < SLOTS && s.counts[k] > 0 && Ours(s.list, k)
    case Unlock(k) => k < SLOTS && s.held[k] > 0 && Ours(s.list, k)
    case Others(counts) => |counts| == SLOTS && forall k :: 0 <= k < SLOTS && Ours(s.list, k) ==> counts[k] == s.counts[k]
  }

  predicate Ours(list: seq<Allocation>, k: nat) {
    exists i :: 0 <= i < |list| && Slot(list[i].id) == k
  }

  ghost function Next(s: State, e: Event): State
    requires |s.counts| == |s.held| == SLOTS
  {
    if !Possible(s, e) then s
    else match e
         case Allocate(queue, high) => Allocated(s, queue, high)
         case Free(id) => FreeRequest(s, id)
         case Flush(id) => FlushRequest(s, id)
         case Done(slot) => FlushDone(s, slot)
         case Disconnect => Disconnected(s)
         case Process => Processed(s)
         case Lock(k) => s.(counts := s.counts[k := s.counts[k] + 1], held := s.held[k := s.held[k] + 1])
         case Unlock(k) => s.(counts := s.counts[k := s.counts[k] - 1], held := s.held[k := s.held[k] - 1])
         case Others(counts) => s.(counts := counts)
  }

  // ---- what always holds ----

  ghost predicate Distinct(list: seq<Allocation>) {
    forall i, j :: 0 <= i < j < |list| ==> Slot(list[i].id) != Slot(list[j].id)
  }

  /** The client's own reference, while it has one, and the SPU's. */
  ghost predicate Counted(a: Allocation, counts: seq<int>, held: seq<nat>)
    requires |counts| == |held| == SLOTS
  {
    counts[Slot(a.id)] == held[Slot(a.id)] + (if a.disposed then 0 else 1) && a.drops == if a.disposed then 1 else 0
  }

  ghost predicate AllCounted(list: seq<Allocation>, counts: seq<int>, held: seq<nat>)
    requires |counts| == |held| == SLOTS
  {
    forall i :: 0 <= i < |list| ==> Counted(list[i], counts, held)
  }

  function Serials(list: seq<Allocation>): seq<nat> {
    seq(|list|, i requires 0 <= i < |list| => list[i].serial)
  }

  /** Every allocation made is in the list or has been given back, and only one of the two, once. */
  ghost predicate Conserved(list: seq<Allocation>, unmapped: seq<nat>, made: nat) {
    forall n: nat :: multiset(Serials(list))[n] + multiset(unmapped)[n] == if n < made then 1 else 0
  }

  ghost predicate Inv(s: State) {
    && |s.counts| == |s.held| == SLOTS && Distinct(s.list) && AllCounted(s.list, s.counts, s.held)
    && Conserved(s.list, s.unmapped, s.made)
    && (!s.open ==> forall i :: 0 <= i < |s.list| ==> s.list[i].disposed)
    && forall k: nat :: k < SLOTS && !Ours(s.list, k) ==> s.held[k] == 0
  }

  lemma SlotOfId(slot: nat, high: nat)
    requires slot < SLOTS
    ensures Slot(MakeId(slot, high)) == slot
  {
    assert MakeId(slot, high) == slot + SLOTS * (0x100 * high);
  }

  lemma OursGrows(a: Allocation, list: seq<Allocation>)
    ensures forall k :: Ours([a] + list, k) <==> k == Slot(a.id) || Ours(list, k)
  {
    forall k ensures Ours([a] + list, k) <==> k == Slot(a.id) || Ours(list, k) {
      assert ([a] + list)[0] == a;
      if i :| 0 <= i < |list| && Slot(list[i].id) == k {
        assert ([a] + list)[i + 1] == list[i];
      }
    }
  }

  lemma SameSlots(p: seq<Allocation>, q: seq<Allocation>)
    requires |p| == |q| && forall i :: 0 <= i < |p| ==> p[i].id == q[i].id
    ensures forall k :: Ours(p, k) <==> Ours(q, k)
  {
    forall k ensures Ours(p, k) <==> Ours(q, k) {
      if i :| 0 <= i < |p| && Slot(p[i].id) == k {
        assert Slot(q[i].id) == k;
      }
    }
  }

  lemma AllocatedKeeps(s: State, queue: bool, high: nat)
    requires Inv(s) && s.open
    ensures Inv(Allocated(s, queue, high))
  {
    var end := if queue then QUEUES else SLOTS;
    var k := LowestFree(s.counts, if queue then 0 else QUEUES, end);
    if k < end {
      SlotOfId(k, high);
      var r := Allocated(s, queue, high);
      forall i | 0 <= i < |s.list| ensures Slot(s.list[i].id) != k {
        assert Counted(s.list[i], s.counts, s.held);
      }
      forall i | 0 <= i < |r.list| ensures Counted(r.list[i], r.counts, r.held) {
        if i == 0 {
          assert !Ours(s.list, k);
        } else {
          assert Counted(s.list[i - 1], s.counts, s.held);
        }
      }
      assert Serials(r.list) == [s.made] + Serials(s.list);
      assert multiset(Serials(r.list)) == multiset{s.made} + multiset(Serials(s.list));
      OursGrows(r.list[0], s.list);
    }
  }

  /** One entry changes its flags; its slot and its serial stay. */
  lemma EntryKeeps(s: State, i: nat, a: Allocation, counts: seq<int>)
    requires Inv(s) && i < |s.list| && a.id == s.list[i].id && a.serial == s.list[i].serial
    requires |counts| == SLOTS && forall k :: 0 <= k < SLOTS && k != Slot(a.id) ==> counts[k] == s.counts[k]
    requires Counted(a, counts, s.held) && (s.list[i].disposed ==> a.disposed)
    ensures Inv(s.(list := s.list[i := a], counts := counts))
  {
    var r := s.(list := s.list[i := a], counts := counts);
    assert Serials(r.list) == Serials(s.list);
    forall j | 0 <= j < |r.list| ensures Counted(r.list[j], r.counts, r.held) {
      if j != i {
        assert Counted(s.list[j], s.counts, s.held);
        assert Slot(s.list[j].id) != Slot(s.list[i].id);
      }
    }
    SameSlots(s.list, r.list);
  }

  lemma RequestsKeep(s: State, id: nat, slot: nat)
    requires Inv(s)
    ensures Inv(FreeRequest(s, id)) && Inv(FlushRequest(s, id)) && Inv(FlushDone(s, slot))
  {
    hide Inv, Counted;
    var i := FirstLive(s.list, id, 0);
    assert |s.counts| == |s.held| == SLOTS && AllCounted(s.list, s.counts, s.held) by { InvParts(s); }
    if i < |s.list| {
      EntryCounted(s.list[i], s.counts, s.held);
      EntryKeeps(s, i, Dispose(s.list[i]), s.counts[Slot(id) := s.counts[Slot(id)] - 1]);
    }
    var j := FirstQueue(s.list, id, 0);
    if j < |s.list| {
      FlagsCounted(s.list[j], s.counts, s.held);
      EntryKeeps(s, j, s.list[j].(waiting := true), s.counts);
    }
    var k := FirstInSlot(s.list, slot, 0);
    if k < |s.list| {
      FlagsCounted(s.list[k], s.counts, s.held);
      EntryKeeps(s, k, s.list[k].(done := true), s.counts);
    }
  }

  lemma InvParts(s: State)
    requires Inv(s)
    ensures |s.counts| == |s.held| == SLOTS && AllCounted(s.list, s.counts, s.held) && Distinct(s.list)
  {
  }

  lemma EntryCounted(a: Allocation, counts: seq<int>, held: seq<nat>)
    requires |counts| == |held| == SLOTS && Counted(a, counts, held) && !a.disposed
    ensures Counted(Dispose(a), counts[Slot(a.id) := counts[Slot(a.id)] - 1], held)
  {
  }

  lemma FlagsCounted(a: Allocation, counts: seq<int>, held: seq<nat>)
    requires |counts| == |held| == SLOTS && Counted(a, counts, held)
    ensures Counted(a.(waiting := true), counts, held) && Counted(a.(done := true), counts, held)
  {
  }

  /** With one allocation to a slot, the live references are at most one. */
  lemma {:induction false} LiveIsOwn(list: seq<Allocation>, k: nat)
    requires Distinct(list)
    ensures Live(list, k) == if exists i :: 0 <= i < |list| && Slot(list[i].id) == k && !list[i].disposed then 1 else 0
  {
    if list != [] {
      var rest, n := list[..|list| - 1], |list| - 1;
      LiveIsOwn(rest, k);
      if Slot(list[n].id) == k && !list[n].disposed {
        assert forall i :: 0 <= i < n ==> Slot(rest[i].id) != k;
      } else if i :| 0 <= i < |list| && Slot(list[i].id) == k && !list[i].disposed {
        assert rest[i] == list[i];
      }
    }
  }

  lemma DisconnectedCounted(s: State, i: nat)
    requires |s.counts| == |s.held| == SLOTS && Distinct(s.list) && AllCounted(s.list, s.counts, s.held) && i < |s.list|
    ensures Counted(Dispose(s.list[i]), Disconnected(s).counts, s.held)
  {
    var a := s.list[i];
    assert Counted(a, s.counts, s.held);
    LiveIsOwn(s.list, Slot(a.id));
    assert forall j :: 0 <= j < |s.list| && Slot(s.list[j].id) == Slot(a.id) ==> j == i;
    hide Live;
  }

  lemma DisconnectedKeeps(s: State)
    requires Inv(s)
    ensures Inv(Disconnected(s))
  {
    var r := Disconnected(s);
    assert Serials(r.list) == Serials(s.list);
    SameSlots(s.list, r.list);
    forall i | 0 <= i < |r.list| ensures Counted(r.list[i], r.counts, r.held) {
      DisconnectedCounted(s, i);
    }
    hide Live, Counted, Ours;
  }

  // ---- clearing up ----

  lemma SerialsOf(list: seq<Allocation>, a: Allocation)
    ensures Serials(list + [a]) == Serials(list) + [a.serial]
    ensures multiset(Serials(list + [a])) == multiset(Serials(list)) + multiset{a.serial}
  {
    assert Serials(list + [a]) == Serials(list) + [a.serial];
  }

  /** Nothing gets lost: what is kept and what is given back are all there was. */
  lemma {:induction false} KeptAndFreed(list: seq<Allocation>, counts: seq<int>)
    requires |counts| == SLOTS
    ensures multiset(Serials(Kept(list, counts))) + multiset(Freed(list, counts)) == multiset(Serials(list))
  {
    if list == [] {
      NoSerials();
    } else {
      var rest, a := list[..|list| - 1], list[|list| - 1];
      KeptAndFreed(rest, counts);
      KeptOrFreed(list, counts);
      hide Serials, Kept, Freed;
      assert list == rest + [a];
      SerialsOf(rest, a);
    }
  }

  lemma KeptOrFreed(list: seq<Allocation>, counts: seq<int>)
    requires |counts| == SLOTS && list != []
    ensures var rest, a := list[..|list| - 1], list[|list| - 1];
            multiset(Serials(Kept(list, counts))) + multiset(Freed(list, counts)) ==
            multiset(Serials(Kept(rest, counts))) + multiset(Freed(rest, counts)) + multiset{a.serial}
  {
    var rest, a := list[..|list| - 1], list[|list| - 1];
    SameEntry(a);
    SerialsOf(Kept(rest, counts), Acknowledge(a));
    hide Serials, Acknowledge;
    if InUse(a, counts) {
      assert Freed(list, counts) == Freed(rest, counts);
      assert Kept(list, counts) == Kept(rest, counts) + [Acknowledge(a)];
      hide Kept, Freed;
    } else {
      assert Freed(list, counts) == Freed(rest, counts) + [a.serial];
      assert Kept(list, counts) == Kept(rest, counts);
      hide Kept, Freed;
      assert multiset(Freed(rest, counts) + [a.serial]) == multiset(Freed(rest, counts)) + multiset{a.serial};
    }
  }

  lemma NoSerials()
    ensures Serials([]) == []
  {
  }

  lemma SameEntry(a: Allocation)
    ensures var b := Acknowledge(a); b.serial == a.serial && b.id == a.id && b.disposed == a.disposed && b.drops == a.drops
  {
  }

  /** One of the allocations kept is one of those in use. */
  ghost predicate From(b: Allocation, list: seq<Allocation>, counts: seq<int>)
    requires |counts| == SLOTS
  {
    exists j :: 0 <= j < |list| && InUse(list[j], counts) && b == Acknowledge(list[j])
  }

  lemma FromMore(b: Allocation, list: seq<Allocation>, counts: seq<int>)
    requires |counts| == SLOTS && list != [] && From(b, list[..|list| - 1], counts)
    ensures From(b, list, counts)
  {
    var j :| 0 <= j < |list| - 1 && InUse(list[j], counts) && b == Acknowledge(list[j]);
  }

  lemma {:induction false} KeptIsFrom(list: seq<Allocation>, counts: seq<int>)
    requires |counts| == SLOTS
    ensures forall i :: 0 <= i < |Kept(list, counts)| ==> From(Kept(list, counts)[i], list, counts)
  {
    if list != [] {
      var n := |list| - 1;
      var rest := list[..n];
      KeptIsFrom(rest, counts);
      var kept, before := Kept(list, counts), Kept(rest, counts);
      forall i | 0 <= i < |kept| ensures From(kept[i], list, counts) {
        if i < |before| {
          assert kept[i] == before[i];
          FromMore(before[i], list, counts);
        } else {
          assert kept[i] == Acknowledge(list[n]);
        }
      }
    }
  }

  lemma {:induction false} InUseIsKept(list: seq<Allocation>, counts: seq<int>, j: nat)
    requires |counts| == SLOTS && j < |list| && InUse(list[j], counts)
    ensures Ours(Kept(list, counts), Slot(list[j].id))
  {
    var n := |list| - 1;
    var kept, before := Kept(list, counts), Kept(list[..n], counts);
    if j < n {
      InUseIsKept(list[..n], counts, j);
      var i :| 0 <= i < |before| && Slot(before[i].id) == Slot(list[j].id);
      assert kept[i] == before[i];
    } else {
      assert kept[|before|] == Acknowledge(list[n]);
    }
  }

  lemma {:induction false} KeptIsDistinct(list: seq<Allocation>, counts: seq<int>)
    requires |counts| == SLOTS && Distinct(list)
    ensures Distinct(Kept(list, counts))
  {
    if list != [] {
      var n := |list| - 1;
      var rest := list[..n];
      var kept, before := Kept(list, counts), Kept(rest, counts);
      KeptIsDistinct(rest, counts);
      KeptIsFrom(rest, counts);
      hide Kept;
      forall i, k | 0 <= i < k < |kept| ensures Slot(kept[i].id) != Slot(kept[k].id) {
        assert kept[i] == before[i];
        if k == |before| {
          assert From(before[i], rest, counts);
          var j :| 0 <= j < n && InUse(rest[j], counts) && before[i] == Acknowledge(rest[j]);
          assert rest[j] == list[j];
        }
      }
    }
  }

  lemma ProcessedKeeps(s: State)
    requires Inv(s)
    ensures Inv(Processed(s))
  {
    var r := Processed(s);
    KeptIsDistinct(s.list, s.counts);
    KeptAndFreed(s.list, s.counts);
    ProcessedCounts(s);
    hide Kept, Freed, CountAfter;
    assert Conserved(r.list, r.unmapped, r.made) by {
      assert multiset(r.unmapped) == multiset(s.unmapped) + multiset(Freed(s.list, s.counts));
    }
  }

  lemma ProcessedCounts(s: State)
    requires Inv(s)
    ensures var r := Processed(s);
            && AllCounted(r.list, r.counts, r.held)
            && (!s.open ==> forall i :: 0 <= i < |r.list| ==> r.list[i].disposed)
            && forall k: nat :: k < SLOTS && !Ours(r.list, k) ==> r.held[k] == 0
  {
    var r := Processed(s);
    KeptIsFrom(s.list, s.counts);
    assert AllCounted(s.list, s.counts, s.held);
    hide Kept, Freed, Distinct, Conserved, Acknowledge;
    forall i | 0 <= i < |r.list| ensures Counted(r.list[i], r.counts, r.held) && (!s.open ==> r.list[i].disposed) {
      assert From(r.list[i], s.list, s.counts);
      var j :| 0 <= j < |s.list| && InUse(s.list[j], s.counts) && r.list[i] == Acknowledge(s.list[j]);
      SameEntry(s.list[j]);
      assert Counted(s.list[j], s.counts, s.held);
    }
    forall k: nat | k < SLOTS && !Ours(r.list, k) ensures r.held[k] == 0 {
      if Ours(s.list, k) {
        NotKeptIsNotHeld(s, k);
      }
    }
  }

  lemma NotKeptIsNotHeld(s: State, k: nat)
    requires |s.counts| == |s.held| == SLOTS && AllCounted(s.list, s.counts, s.held)
    requires k < SLOTS && Ours(s.list, k) && !Ours(Kept(s.list, s.counts), k)
    ensures s.held[k] == 0
  {
    var j :| 0 <= j < |s.list| && Slot(s.list[j].id) == k;
    assert Counted(s.list[j], s.counts, s.held);
    if s.counts[k] > 0 {
      InUseIsKept(s.list, s.counts, j);
    }
  }

  lemma NextKeeps(s: State, e: Event)
    requires Inv(s)
    ensures Inv(Next(s, e))
  {
    if Possible(s, e) {
      match e
      case Allocate(queue, high) => AllocatedKeeps(s, queue, high);
      case Free(id) => RequestsKeep(s, id, 0);
      case Flush(id) => RequestsKeep(s, id, 0);
      case Done(slot) => RequestsKeep(s, 0, slot);
      case Disconnect => DisconnectedKeeps(s);
      case Process => ProcessedKeeps(s);
      case Lock(k) => LocksKeep(s, k, 1);
      case Unlock(k) => LocksKeep(s, k, -1);
      case Others(counts) => OthersKeep(s, counts);
    }
  }

  lemma LocksKeep(s: State, k: nat, d: int)
    requires Inv(s) && k < SLOTS && s.held[k] + d >= 0 && Ours(s.list, k)
    ensures Inv(s.(counts := s.counts[k := s.counts[k] + d], held := s.held[k := s.held[k] + d]))
  {
    var r := s.(counts := s.counts[k := s.counts[k] + d], held := s.held[k := s.held[k] + d]);
    forall i | 0 <= i < |r.list| ensures Counted(r.list[i], r.counts, r.held) {
      assert Counted(s.list[i], s.counts, s.held);
    }
  }

  lemma OthersKeep(s: State, counts: seq<int>)
    requires Inv(s) && |counts| == SLOTS && forall k :: 0 <= k < SLOTS && Ours(s.list, k) ==> counts[k] == s.counts[k]
    ensures Inv(s.(counts := counts))
  {
    forall i | 0 <= i < |s.list| ensures Counted(s.list[i], counts, s.held) {
      assert Counted(s.list[i], s.counts, s.held) && Ours(s.list, Slot(s.list[i].id));
    }
  }

  // ---- runs ----

  function Connected(counts: seq<int>): State {
    State(true, [], counts, [], seq(SLOTS, k => 0), 0)
  }

  /** The connection after any run of events; an event that is not possible is skipped. */
  ghost function After(counts: seq<int>, run: seq<Event>): (s: State)
    requires |counts| == SLOTS
    ensures Inv(s)
  {
    if run == [] then Connected(counts)
    else
      var s := After(counts, run[..|run| - 1]);
      NextKeeps(s, run[|run| - 1]);
      Next(s, run[|run| - 1])
  }

  /** In every run: each allocation has been dropped at most once, namely when it was disposed of;
      its count is the client's reference and the SPU's locks; and each allocation made is in the
      list or unmapped, never both and never twice. */
  lemma DisposedOnceUnmappedOnce(counts: seq<int>, run: seq<Event>)
    requires |counts| == SLOTS
    ensures var s := After(counts, run);
            && (forall i :: 0 <= i < |s.list| ==>
                  && s.list[i].drops == (if s.list[i].disposed then 1 else 0)
                  && s.counts[Slot(s.list[i].id)] == s.held[Slot(s.list[i].id)] + (if s.list[i].disposed then 0 else 1))
            && forall n: nat :: n < s.made ==> multiset(Serials(s.list))[n] + multiset(s.unmapped)[n] == 1
  {
    var s := After(counts, run);
    forall i | 0 <= i < |s.list| ensures Counted(s.list[i], s.counts, s.held) { }
  }

  /** Clearing up gives back exactly what has been disposed of and is not locked by the SPU. */
  lemma GivesBackTheUnused(counts: seq<int>, run: seq<Event>, i: nat)
    requires |counts| == SLOTS
    ensures var s := After(counts, run);
            i < |s.list| ==> (!InUse(s.list[i], s.counts) <==> s.list[i].disposed && s.held[Slot(s.list[i].id)] == 0)
  {
    var s := After(counts, run);
    assert i < |s.list| ==> Counted(s.list[i], s.counts, s.held);
  }

  /** A flush that is done is acknowledged by the next clearing up and not again by the one after. */
  lemma {:induction false} AcknowledgedOnce(list: seq<Allocation>, counts: seq<int>)
    requires |counts| == SLOTS
    ensures Acks(Kept(list, counts)) == 0 && forall i :: 0 <= i < |Kept(list, counts)| ==> !Flushed(Kept(list, counts)[i])
    ensures Acks(list) == 0 <==> forall i :: 0 <= i < |list| ==> !Flushed(list[i])
  {
    KeptIsFrom(list, counts);
    var kept := Kept(list, counts);
    hide Kept;
    forall i | 0 <= i < |kept| ensures !Flushed(kept[i]) {
      assert From(kept[i], list, counts);
    }
    NoAcks(kept);
    NoAcks(list);
  }

  lemma {:induction false} NoAcks(list: seq<Allocation>)
    ensures Acks(list) == 0 <==> forall i :: 0 <= i < |list| ==> !Flushed(list[i])
  {
    if list != [] {
      var n := |list| - 1;
      NoAcks(list[..n]);
      assert forall i :: 0 <= i < n ==> list[..n][i] == list[i];
    }
  }

  /** When the client is gone and the SPU holds no lock, clearing up leaves nothing behind: every
      allocation ever made has been unmapped once. */
  lemma NothingIsLeft(counts: seq<int>, run: seq<Event>)
    requires |counts| == SLOTS
    ensures var s := After(counts, run);
            var r := Processed(s);
            !s.open && (forall k :: 0 <= k < SLOTS ==> s.held[k] == 0) ==>
              && r.list == [] && (forall n: nat :: multiset(r.unmapped)[n] == if n < r.made then 1 else 0)
              && forall i :: 0 <= i < |s.list| ==> r.counts[Slot(s.list[i].id)] == -1
  {
    var s := After(counts, run);
    if !s.open && forall k :: 0 <= k < SLOTS ==> s.held[k] == 0 {
      forall i | 0 <= i < |s.list| ensures !InUse(s.list[i], s.counts) {
        GivesBackTheUnused(counts, run, i);
      }
      hide After;
      NothingInUse(s);
    }
  }

  lemma NothingInUse(s: State)
    requires Inv(s) && forall i :: 0 <= i < |s.list| ==> !InUse(s.list[i], s.counts)
    ensures var r := Processed(s);
            && r.list == [] && (forall n: nat :: multiset(r.unmapped)[n] == if n < s.made then 1 else 0)
            && forall i :: 0 <= i < |s.list| ==> r.counts[Slot(s.list[i].id)] == -1
  {
    ProcessedKeeps(s);
    KeptIsFrom(s.list, s.counts);
    hide Kept, Freed, Distinct, AllCounted;
    var r := Processed(s);
    assert r.list != [] ==> From(r.list[0], s.list, s.counts);
    assert Serials(r.list) == [];
    assert Conserved(r.list, r.unmapped, r.made);
  }
}
