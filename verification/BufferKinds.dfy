/** Command queues and data buffers have slots of their own: the SPU looks for commands in the first
    16 only, and an allocation fails only when its own kind has no slot left. */
module BufferKinds {
  import opened BufferLifetime

  /** The first slot for a buffer of the kind, and the slot behind the last. */
  function From(queue: bool): nat {
    if queue then 0 else QUEUES
  }

  function To(queue: bool): nat {
    if queue then QUEUES else SLOTS
  }

  ghost predicate KindsOk(allocs: seq<Alloc>) {
    forall k :: 0 <= k < |allocs| ==> From(allocs[k].queue) <= allocs[k].slot < To(allocs[k].queue)
  }

  /** The words that the allocator has gone past have no free slot. */
  ghost predicate Passed(counts: seq<int>, queue: bool, i: nat, end: nat)
    requires |counts| == SLOTS
  {
    && From(queue) <= i && end == To(queue) && i <= SLOTS
    && forall q :: From(queue) <= q < i ==> counts[q] >= 0
  }

  ghost predicate KindInv(s: State) {
    && |s.counts| == SLOTS && KindsOk(s.allocs)
    && match s.server
       case AllocLoad(i, end) => Passed(s.counts, s.asked, i, end)
       case AllocMark(i, end, j) => Passed(s.counts, s.asked, i, end) && i + j < end
       case AllocStore(i, end, j) => Passed(s.counts, s.asked, i, end) && i + j < end
       case _ => true
  }

  lemma InitKinds()
    ensures KindInv(Init())
  {
  }

  // ---- the server's steps ----

  lemma WordPassed(s: State, i: nat)
    requires |s.counts| == SLOTS && i + 4 <= SLOTS && FirstFree(WordAt(s, i)) == 4
    ensures forall q :: i <= q < i + 4 ==> s.counts[q] >= 0
  {
    forall q | i <= q < i + 4 ensures s.counts[q] >= 0 {
      assert WordAt(s, i)[q - i] == s.counts[q];
    }
  }

  lemma LoadKinds(s: State)
    requires ServerFits(s) && KindInv(s) && s.server.AllocLoad?
    ensures KindInv(ServerStep(s))
  {
    var i := s.server.i;
    if FirstFree(WordAt(s, i)) == 4 {
      WordPassed(s, i);
    }
    hide KindsOk, WordAt, FirstFree;
  }

  lemma MarkKinds(s: State)
    requires ServerFits(s) && KindInv(s) && s.server.AllocMark?
    ensures KindInv(ServerStep(s))
  {
    hide KindsOk;
  }

  lemma StoreKinds(s: State)
    requires ServerFits(s) && KindInv(s) && s.server.AllocStore?
    ensures KindInv(ServerStep(s))
  {
    hide Passed;
    assert From(s.asked) <= s.server.i + s.server.j < To(s.asked) by { PassedInside(s); }
  }

  lemma PassedInside(s: State)
    requires KindInv(s) && s.server.AllocStore?
    ensures From(s.asked) <= s.server.i + s.server.j < To(s.asked)
  {
  }

  lemma OtherKinds(s: State)
    requires ServerFits(s) && KindInv(s) && !s.server.AllocLoad? && !s.server.AllocMark? && !s.server.AllocStore?
    ensures KindInv(ServerStep(s))
  {
    OtherFrame(s);
    KindsStay(s.allocs, ServerStep(s).allocs);
    hide Passed, ServerStep, ServerFits, KindsOk;
  }

  lemma OtherFrame(s: State)
    requires ServerFits(s) && !s.server.AllocLoad? && !s.server.AllocMark? && !s.server.AllocStore?
    ensures var r := ServerStep(s);
            && |r.counts| == SLOTS && |r.allocs| == |s.allocs|
            && !r.server.AllocLoad? && !r.server.AllocMark? && !r.server.AllocStore?
            && forall k :: 0 <= k < |s.allocs| ==> r.allocs[k].slot == s.allocs[k].slot && r.allocs[k].queue == s.allocs[k].queue
  {
    hide WordAt, StoreWord;
  }

  lemma KindsStay(a: seq<Alloc>, b: seq<Alloc>)
    requires KindsOk(a) && |a| == |b| && forall k :: 0 <= k < |a| ==> b[k].slot == a[k].slot && b[k].queue == a[k].queue
    ensures KindsOk(b)
  {
  }

  lemma ServerKinds(s: State)
    requires Inv(s) && KindInv(s)
    ensures KindInv(ServerStep(s))
  {
    InvFits(s);
    hide *;
    match s.server
    case AllocLoad(_, _) => LoadKinds(s);
    case AllocMark(_, _, _) => MarkKinds(s);
    case AllocStore(_, _, _) => StoreKinds(s);
    case _ => OtherKinds(s);
  }

  // ---- the SPU's ----

  /** A count is negative exactly while nothing live has the slot, which the SPU does not change. */
  lemma TakenCounts(s: State, q: nat)
    requires Tables(s) && q < SLOTS
    ensures s.counts[q] >= 0 <==> !Unowned(s.allocs, q)
  {
    if !Unowned(s.allocs, q) {
      var k :| 0 <= k < |s.allocs| && !s.allocs[k].freed && s.allocs[k].slot == q;
      LiveCount(s, k);
    }
  }

  lemma SpuFrame(s: State, choice: nat)
    requires SpuFits(s) && choice < QUEUES
    ensures var r := SpuStep(s, choice);
            r.allocs == s.allocs && r.asked == s.asked && r.server == s.server
  {
  }

  lemma SpuKinds(s: State, choice: nat)
    requires Inv(s) && KindInv(s) && choice < QUEUES
    ensures KindInv(SpuStep(s, choice))
  {
    InvFits(s);
    SpuKeeps(s, choice);
    SpuFrame(s, choice);
    StillPassed(s, SpuStep(s, choice));
  }

  lemma StillPassed(s: State, r: State)
    requires Inv(s) && Inv(r) && KindInv(s) && r.allocs == s.allocs && r.asked == s.asked && r.server == s.server
    ensures KindInv(r)
  {
    InvFits(r);
    forall q: nat | q < SLOTS ensures s.counts[q] >= 0 <==> r.counts[q] >= 0 {
      TakenCounts(s, q);
      TakenCounts(r, q);
    }
    hide Inv, KindsOk;
  }

  // ---- runs ----

  lemma ApplyKinds(s: State, e: Action)
    requires Inv(s) && Allowed(s, e) && KindInv(s)
    ensures KindInv(Apply(s, e))
  {
    match e
    case Allocate(commandQueue) => AllocateKinds(s, commandQueue);
    case Dispose(id) => DisposeKinds(s, id);
    case TryFree(id) => TryFreeKinds(s, id);
    case ServerMoves => ServerKinds(s);
    case SpuMoves(choice) => SpuKinds(s, choice);
    case WordReservationLost => LossKinds(s, false, s.lineReserved);
    case LineReservationLost => LossKinds(s, s.wordReserved, false);
  }

  lemma AllocateKinds(s: State, commandQueue: bool)
    requires KindInv(s)
    ensures KindInv(StartAlloc(s, commandQueue))
  {
    hide KindsOk;
  }

  lemma DisposeKinds(s: State, id: nat)
    requires KindInv(s) && id < |s.allocs|
    ensures KindInv(StartDispose(s, id))
  {
    KindsStay(s.allocs, StartDispose(s, id).allocs);
    hide KindsOk;
  }

  lemma TryFreeKinds(s: State, id: nat)
    requires KindInv(s)
    ensures KindInv(StartTryFree(s, id))
  {
    hide KindsOk;
  }

  lemma LossKinds(s: State, word: bool, line: bool)
    requires KindInv(s)
    ensures KindInv(s.(wordReserved := word, lineReserved := line))
  {
    hide KindsOk;
  }

  lemma {:induction false} RunKinds(run: seq<Action>)
    ensures KindInv(After(run))
    decreases |run|
  {
    hide Inv, KindInv, Apply, Allowed;
    if run == [] {
      InitKinds();
    } else {
      var before := After(run[..|run| - 1]);
      RunKinds(run[..|run| - 1]);
      if Allowed(before, run[|run| - 1]) {
        ApplyKinds(before, run[|run| - 1]);
      }
    }
  }

  /** In every run: each command queue has one of the first 16 slots and each data buffer one of the
      others, and what the SPU is inside of is a command queue. */
  lemma {:induction false} SlotsAreOfTheirKind(run: seq<Action>)
    ensures var s := After(run);
            && (forall k :: 0 <= k < |s.allocs| ==> s.allocs[k].slot < SLOTS && (s.allocs[k].queue <==> s.allocs[k].slot < QUEUES))
            && (s.spu.Inside? ==> 0 <= s.ea[s.spu.q] < |s.allocs| && s.allocs[s.ea[s.spu.q]].queue)
  {
    RunKinds(run);
    NeverUnmappedUnderTheSpu(run);
    hide After;
  }

  /** The allocator gives up exactly when, at that moment, every slot of the kind asked for is taken:
      whatever the SPU did while it was looking. */
  lemma {:induction false} FailsWhenFull(run: seq<Action>)
    ensures var s := After(run);
            s.server.AllocLoad? ==>
              && Allowed(s, ServerMoves)
              && (Apply(s, ServerMoves).server == Ready <==>
                    s.server.i + 4 == s.server.end && forall q :: From(s.asked) <= q < To(s.asked) ==> s.counts[q] >= 0)
  {
    var s := After(run);
    RunKinds(run);
    hide After;
    if s.server.AllocLoad? {
      LastWord(s);
    }
  }

  lemma LastWord(s: State)
    requires Inv(s) && KindInv(s) && s.server.AllocLoad?
    ensures ServerFits(s)
    ensures ServerStep(s).server == Ready <==>
              s.server.i + 4 == s.server.end && forall q :: From(s.asked) <= q < To(s.asked) ==> s.counts[q] >= 0
  {
    InvFits(s);
    GivesUp(s);
    WordDecides(s, s.server.i);
    hide Inv, KindsOk, FirstFree, WordAt, ServerStep, ServerFits;
  }

  lemma GivesUp(s: State)
    requires ServerFits(s) && s.server.AllocLoad?
    ensures s.server.i + 4 <= s.server.end <= SLOTS
    ensures ServerStep(s).server == Ready <==> FirstFree(WordAt(s, s.server.i)) == 4 && s.server.i + 4 == s.server.end
  {
    hide FirstFree, WordAt;
  }

  lemma WordDecides(s: State, i: nat)
    requires |s.counts| == SLOTS && i + 4 <= SLOTS
    ensures FirstFree(WordAt(s, i)) == 4 <==> forall q :: i <= q < i + 4 ==> s.counts[q] >= 0
  {
    var j := FirstFree(WordAt(s, i));
    if j == 4 {
      WordPassed(s, i);
    } else {
      assert WordAt(s, i)[j] == s.counts[i + j];
    }
  }

  /** A call of the allocator that comes to its end has either made an allocation of the kind asked for, in
      a slot of that kind that was free, or found every slot of the kind taken. */
  lemma {:induction false} AllocationEnds(run: seq<Action>)
    ensures var s := After(run);
            (s.server.AllocLoad? || s.server.AllocMark? || s.server.AllocStore?) ==>
              && Allowed(s, ServerMoves)
              && var r := Apply(s, ServerMoves);
                 r.server == Ready ==>
                   || (|r.allocs| == |s.allocs| + 1 && r.allocs[..|s.allocs|] == s.allocs
                       && var a := r.allocs[|s.allocs|];
                          && a.queue == s.asked && From(a.queue) <= a.slot < To(a.queue) && !a.disposed
                          && s.counts[a.slot] == -1 && r.counts[a.slot] == 1)
                   || (r.allocs == s.allocs && forall q :: From(s.asked) <= q < To(s.asked) ==> s.counts[q] >= 0)
  {
    var s := After(run);
    RunKinds(run);
    hide After;
    if s.server.AllocLoad? {
      LastWord(s);
      LoadMakesNone(s);
    } else if s.server.AllocStore? && s.wordReserved {
      StoreMakesOne(s);
    } else if s.server.AllocStore? || s.server.AllocMark? {
      NotYetReady(s);
    }
  }

  lemma LoadMakesNone(s: State)
    requires ServerFits(s) && s.server.AllocLoad?
    ensures ServerStep(s).allocs == s.allocs
  {
  }

  lemma NotYetReady(s: State)
    requires Inv(s) && (s.server.AllocMark? || (s.server.AllocStore? && !s.wordReserved))
    ensures ServerFits(s) && ServerStep(s).server != Ready
  {
    InvFits(s);
    hide Inv;
  }

  lemma StoreMakesOne(s: State)
    requires Inv(s) && KindInv(s) && s.server.AllocStore? && s.wordReserved
    ensures ServerFits(s)
    ensures var r := ServerStep(s);
            && |r.allocs| == |s.allocs| + 1 && r.allocs[..|s.allocs|] == s.allocs
            && var a := r.allocs[|s.allocs|];
               && a.queue == s.asked && From(a.queue) <= a.slot < To(a.queue) && !a.disposed
               && s.counts[a.slot] == -1 && r.counts[a.slot] == 1
  {
    InvFits(s);
    AllocStoreTables(s);
    PassedInside(s);
    FreeWhileStoring(s);
    hide Inv, KindInv, Tables;
  }

  lemma FreeWhileStoring(s: State)
    requires Inv(s) && s.server.AllocStore?
    ensures s.server.i + s.server.j < SLOTS && s.counts[s.server.i + s.server.j] == -1
  {
    InvFits(s);
    hide Tables, HeldOk, SpuCopyOk;
  }

  /** A try to free ends without freeing only if the count was positive, however often its store failed. */
  lemma {:induction false} TryEnds(run: seq<Action>)
    ensures var s := After(run);
            (s.server.FreeLoad? || s.server.FreeStore?) ==>
              && s.server.id < |s.allocs| && Allowed(s, ServerMoves)
              && (Apply(s, ServerMoves).server == Ready ==> s.counts[s.allocs[s.server.id].slot] > 0)
  {
    var s := After(run);
    InvFits(s);
    hide After;
    if s.server.FreeLoad? || s.server.FreeStore? {
      TryGivesUp(s);
    }
  }

  lemma TryGivesUp(s: State)
    requires ServerFits(s) && (s.server.FreeLoad? || s.server.FreeStore?)
    ensures ServerStep(s).server == Ready ==> s.counts[s.allocs[s.server.id].slot] > 0
  {
    var q := s.allocs[s.server.id].slot;
    assert WordAt(s, Base(q))[q % 4] == s.counts[q];
  }
}
