/** Which slots a client's allocations get: command queues the first 16, data buffers the others, and
    nothing only when none of their own is free. */
module ConnectionKinds {
  import opened Connection
  import opened ConnectionRuns

  /** Slot k may be given to a buffer of the kind. */
  predicate OfKind(queue: bool, k: nat) {
    k < SLOTS && (queue <==> k < QUEUES)
  }

  ghost predicate KindsOk(list: seq<Allocation>) {
    forall i :: 0 <= i < |list| ==> OfKind(list[i].queue, Slot(list[i].id))
  }

  /** An allocation takes the lowest slot of its kind with a negative count, and is refused exactly when
      there is none. */
  lemma TakesTheLowest(s: State, queue: bool, high: nat)
    requires |s.counts| == SLOTS
    ensures var r := Allocated(s, queue, high);
            if forall k :: 0 <= k < SLOTS && OfKind(queue, k) ==> s.counts[k] >= 0 then r == s
            else
              && r.list != [] && r.list[1..] == s.list
              && var k := Slot(r.list[0].id);
                 && r.list[0].queue == queue && OfKind(queue, k) && s.counts[k] < 0 && r.counts == s.counts[k := 1]
                 && !r.list[0].waiting && !r.list[0].done && !r.list[0].disposed
                 && forall j :: 0 <= j < k && OfKind(queue, j) ==> s.counts[j] >= 0
  {
    var end := if queue then QUEUES else SLOTS;
    var k := LowestFree(s.counts, if queue then 0 else QUEUES, end);
    if k < end {
      SlotOfId(k, high);
      assert OfKind(queue, k);
    }
  }

  lemma SameKinds(p: seq<Allocation>, q: seq<Allocation>)
    requires KindsOk(p) && |p| == |q| && forall i :: 0 <= i < |p| ==> q[i].id == p[i].id && q[i].queue == p[i].queue
    ensures KindsOk(q)
  {
    hide OfKind;
  }

  lemma NextKinds(s: State, e: Event)
    requires ConnectionRuns.Inv(s) && KindsOk(s.list)
    ensures KindsOk(Next(s, e).list)
  {
    hide OfKind;
    if Possible(s, e) {
      match e
      case Allocate(queue, high) =>
        hide Allocated;
        TakesTheLowest(s, queue, high);
        AddedKind(s.list, Allocated(s, queue, high).list);
      case Free(id) => SameKinds(s.list, FreeRequest(s, id).list);
      case Flush(id) => SameKinds(s.list, FlushRequest(s, id).list);
      case Done(slot) => SameKinds(s.list, FlushDone(s, slot).list);
      case Disconnect => SameKinds(s.list, DisposeAll(s.list));
      case Process => KeptKinds(s.list, s.counts);
      case _ =>
    }
  }

  lemma AddedKind(list: seq<Allocation>, more: seq<Allocation>)
    requires KindsOk(list) && (more == list || (more != [] && more[1..] == list && OfKind(more[0].queue, Slot(more[0].id))))
    ensures KindsOk(more)
  {
    hide OfKind;
    forall i | 0 <= i < |more| ensures OfKind(more[i].queue, Slot(more[i].id)) {
      if more != list && i > 0 {
        assert more[i] == list[i - 1];
      }
    }
  }

  lemma KeptKinds(list: seq<Allocation>, counts: seq<int>)
    requires |counts| == SLOTS && KindsOk(list)
    ensures KindsOk(Kept(list, counts))
  {
    KeptIsFrom(list, counts);
    var kept := Kept(list, counts);
    hide Kept, OfKind;
    forall i | 0 <= i < |kept| ensures OfKind(kept[i].queue, Slot(kept[i].id)) {
      assert From(kept[i], list, counts);
    }
  }

  /** In every run the command queues, and only these, are in the slots in which the SPU looks for them. */
  lemma {:induction false} QueuesComeFirst(counts: seq<int>, run: seq<Event>)
    requires |counts| == SLOTS
    ensures var s := After(counts, run);
            forall i :: 0 <= i < |s.list| ==> (s.list[i].queue <==> Slot(s.list[i].id) < QUEUES)
    decreases |run|
  {
    RunKinds(counts, run);
    hide After;
  }

  lemma {:induction false} RunKinds(counts: seq<int>, run: seq<Event>)
    requires |counts| == SLOTS
    ensures KindsOk(After(counts, run).list)
    decreases |run|
  {
    hide KindsOk, ConnectionRuns.Inv, Next;
    if run == [] {
      NoneListed(counts);
    } else {
      RunKinds(counts, run[..|run| - 1]);
      NextKinds(After(counts, run[..|run| - 1]), run[|run| - 1]);
    }
  }

  lemma NoneListed(counts: seq<int>)
    requires |counts| == SLOTS
    ensures KindsOk(Connected(counts).list)
  {
  }
}
