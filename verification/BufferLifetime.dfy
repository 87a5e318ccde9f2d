/** The life of a shared buffer: one server thread and one SPU change the table of usage counts
    by load-reserved and store-conditional. Every access is a step; steps interleave freely. */
module BufferLifetime {

  const SLOTS: nat := 256   // MAX_DATA_BUFFERS
  const QUEUES: nat := 16   // MAX_COMMAND_BUFFERS
  const LINE: nat := 128    // one reservation granule holds this many counts

  /** An allocation. `queue` and `disposed` are flags; `freed` is set when its count goes back to -1.
      The last two are history: how often its count was dropped and its memory unmapped. */
  datatype Alloc = Alloc(slot: nat, queue: bool, disposed: bool, freed: bool, drops: nat, unmaps: nat)

  datatype ServerPc =
    | Ready
    | AllocLoad(i: nat, end: nat)
    | AllocMark(i: nat, end: nat, j: nat)
    | AllocStore(i: nat, end: nat, j: nat)
    | DropLoad(id: nat)
    | DropStore(id: nat)
    | FreeLoad(id: nat)
    | FreeStore(id: nat)
    | Unmapping(id: nat)

  datatype SpuPc =
    | Away
    | Load(q: nat)
    | Check(q: nat)
    | LockStore(q: nat)
    | Inside(q: nat)
    | UnlockLoad(q: nat)
    | UnlockStore(q: nat)

  datatype State = State(
    counts: seq<int>, ea: seq<int>,           // the shared tables; ea holds allocation numbers
    allocs: seq<Alloc>,
    asked: bool,                              // the last allocation asked for is a command queue
    server: ServerPc, word: seq<int>, wordReserved: bool,
    spu: SpuPc, stop: nat, line: seq<int>, lineReserved: bool,
    held: int)                                // history: the allocation the SPU has locked, or -1

  function Init(): State {
    State(seq(SLOTS, k => -1), seq(SLOTS, k => -1), [], false, Ready, [0, 0, 0, 0], false,
          Away, 0, seq(LINE, k => -1), false, -1)
  }

  // ---- the server ----

  /** blockManagementAllocateBlock is called, for a command queue or for data. */
  function StartAlloc(s: State, commandQueue: bool): State {
    s.(asked := commandQueue, server := if commandQueue then AllocLoad(0, QUEUES) else AllocLoad(QUEUES, SLOTS))
  }

  /** The flag is set before blockManagementBlockCountDispose is called. */
  function StartDispose(s: State, id: nat): State
    requires id < |s.allocs|
  {
    s.(allocs := s.allocs[id := s.allocs[id].(disposed := true)], server := DropLoad(id))
  }

  function StartTryFree(s: State, id: nat): State {
    s.(server := FreeLoad(id))
  }

  function WordAt(s: State, i: nat): (w: seq<int>)
    requires |s.counts| == SLOTS && i + 4 <= SLOTS
    ensures |w| == 4
  {
    s.counts[i..i + 4]
  }

  function LoadWord(s: State, i: nat): State
    requires |s.counts| == SLOTS && i + 4 <= SLOTS
  {
    s.(word := WordAt(s, i), wordReserved := true)
  }

  /** The first free count of a word, or 4. */
  function FirstFree(w: seq<int>): (j: nat)
    requires |w| == 4
    ensures j <= 4 && (j < 4 ==> w[j] < 0) && forall k :: 0 <= k < j ==> w[k] >= 0
  {
    if w[0] < 0 then 0 else if w[1] < 0 then 1 else if w[2] < 0 then 2 else if w[3] < 0 then 3 else 4
  }

  /** A successful store-conditional of a word: the SPU's reservation goes with it if it is on
      the same line. */
  function StoreWord(s: State, i: nat, w: seq<int>): (r: State)
    requires |s.counts| == SLOTS && i + 4 <= SLOTS && |w| == 4
    ensures |r.counts| == SLOTS && r.allocs == s.allocs
  {
    s.(counts := s.counts[..i] + w + s.counts[i + 4..], wordReserved := false,
       lineReserved := s.lineReserved && i >= LINE)
  }

  function Base(slot: nat): nat { slot - slot % 4 }

  ghost predicate ServerFits(s: State) {
    && |s.counts| == |s.ea| == SLOTS && |s.word| == 4
    && (forall k :: 0 <= k < |s.allocs| ==> s.allocs[k].slot < SLOTS)
    && match s.server
       case Ready => true
       case AllocLoad(i, end) => i < end <= SLOTS && i % 4 == 0 && end % 4 == 0
       case AllocMark(i, end, j) => i < end <= SLOTS && i % 4 == 0 && end % 4 == 0 && j < 4
       case AllocStore(i, end, j) => i < end <= SLOTS && i % 4 == 0 && end % 4 == 0 && j < 4
       case DropLoad(id) => id < |s.allocs|
       case DropStore(id) => id < |s.allocs|
       case FreeLoad(id) => id < |s.allocs|
       case FreeStore(id) => id < |s.allocs|
       case Unmapping(id) => id < |s.allocs|
  }

  function ServerStep(s: State): State
    requires ServerFits(s)
  {
    match s.server
    case Ready => s
    case AllocLoad(i, end) =>
      var r := LoadWord(s, i);
      var j := FirstFree(r.word);
      if j < 4 then r.(server := AllocMark(i, end, j))
      else if i + 4 < end then r.(server := AllocLoad(i + 4, end))
      else r.(server := Ready)
    case AllocMark(i, end, j) =>
      s.(ea := s.ea[i + j := |s.allocs|], server := AllocStore(i, end, j))
    case AllocStore(i, end, j) =>
      if !s.wordReserved then s.(server := AllocLoad(i, end))
      else StoreWord(s, i, s.word[j := 1]).(
             allocs := s.allocs + [Alloc(i + j, s.asked, false, false, 0, 0)], server := Ready)
    case DropLoad(id) => LoadWord(s, Base(s.allocs[id].slot)).(server := DropStore(id))
    case DropStore(id) =>
      if !s.wordReserved then s.(server := DropLoad(id))
      else
        var a := s.allocs[id];
        StoreWord(s, Base(a.slot), s.word[a.slot % 4 := s.word[a.slot % 4] - 1]).(
          allocs := s.allocs[id := a.(drops := a.drops + 1)], server := Ready)
    case FreeLoad(id) =>
      var r := LoadWord(s, Base(s.allocs[id].slot));
      if r.word[s.allocs[id].slot % 4] > 0 then r.(server := Ready) else r.(server := FreeStore(id))
    case FreeStore(id) =>
      if !s.wordReserved then s.(server := FreeLoad(id))
      else
        var a := s.allocs[id];
        StoreWord(s, Base(a.slot), s.word[a.slot % 4 := -1]).(
          allocs := s.allocs[id := a.(freed := true)], server := Unmapping(id))
    case Unmapping(id) =>
      s.(allocs := s.allocs[id := s.allocs[id].(unmaps := s.allocs[id].unmaps + 1)], server := Ready)
  }

  // ---- the SPU ----

  ghost predicate SpuFits(s: State) {
    && |s.counts| == SLOTS && |s.ea| == SLOTS && |s.line| == LINE && s.stop < QUEUES
    && (s.spu != Away ==> s.spu.q < QUEUES)
  }

  function LoadLine(s: State): State
    requires |s.counts| == SLOTS
  {
    s.(line := s.counts[..LINE], lineReserved := true)
  }

  /** A successful store-conditional of the line. */
  function StoreLine(s: State): State
    requires |s.counts| == SLOTS && |s.line| == LINE
  {
    s.(counts := s.line + s.counts[LINE..], lineReserved := false,
       wordReserved := s.wordReserved && ServerOnOtherLine(s.server, s.allocs))
  }

  function ServerOnOtherLine(pc: ServerPc, allocs: seq<Alloc>): bool {
    match pc
    case AllocMark(i, end, j) => i >= LINE
    case AllocStore(i, end, j) => i >= LINE
    case DropStore(id) => id < |allocs| && Base(allocs[id].slot) >= LINE
    case FreeStore(id) => id < |allocs| && Base(allocs[id].slot) >= LINE
    case _ => false
  }

  /** To the next queue, or out of process_queues after a full round. */
  function Advance(s: State, q: nat): State {
    var next := (q + 1) % QUEUES;
    s.(spu := if next == s.stop then Away else Check(next))
  }

  /** `choice` is the queue to begin with when the SPU is away. */
  function SpuStep(s: State, choice: nat): State
    requires SpuFits(s) && choice < QUEUES
  {
    match s.spu
    case Away => s.(spu := Load(choice), stop := choice)
    case Load(q) => LoadLine(s).(spu := Check(q))
    case Check(q) =>
      if s.line[q] > 0 then s.(line := s.line[q := s.line[q] + 1], spu := LockStore(q))
      else Advance(s, q)
    case LockStore(q) =>
      if !s.lineReserved then s.(spu := Load(q))
      else StoreLine(s).(spu := Inside(q), held := s.ea[q])
    case Inside(q) => s.(spu := UnlockLoad(q))
    case UnlockLoad(q) =>
      var r := LoadLine(s);
      r.(line := r.line[q := r.line[q] - 1], spu := UnlockStore(q))
    case UnlockStore(q) =>
      if !s.lineReserved then s.(spu := UnlockLoad(q))
      else Advance(StoreLine(s).(held := -1), q)
  }

  // ---- the invariant ----

  function Holds(spu: SpuPc, q: nat): bool {
    (spu.Inside? || spu.UnlockLoad? || spu.UnlockStore?) && spu.q == q
  }

  /** What one allocation's record says about the tables and the server. */
  ghost predicate AllocOk(a: Alloc, k: nat, counts: seq<int>, ea: seq<int>, server: ServerPc, spu: SpuPc)
    requires |counts| == |ea| == SLOTS
  {
    && a.slot < SLOTS
    // one for the client until its reference was dropped, one for the SPU while it has the lock
    && (!a.freed ==> counts[a.slot] == (if a.drops == 0 then 1 else 0) + (if Holds(spu, a.slot) then 1 else 0)
                     && ea[a.slot] == k)
    // dropped at most once, and only after the flag was set
    && a.drops <= 1 && a.unmaps <= 1
    && (a.disposed && a.drops == 0 <==> server == DropLoad(k) || server == DropStore(k))
    && (a.drops == 1 ==> a.disposed)
    // freed only after it was dropped, and then unmapped once
    && (a.freed ==> a.drops == 1)
    && (a.freed && a.unmaps == 0 <==> server == Unmapping(k))
    && (a.unmaps == 1 ==> a.freed)
    && (server == FreeLoad(k) || server == FreeStore(k) ==> !a.freed)
  }

  ghost predicate Unowned(allocs: seq<Alloc>, q: nat) {
    forall k :: 0 <= k < |allocs| && !allocs[k].freed ==> allocs[k].slot != q
  }

  ghost predicate Apart(allocs: seq<Alloc>) {
    forall j, k :: 0 <= j < k < |allocs| && !allocs[j].freed && !allocs[k].freed ==> allocs[j].slot != allocs[k].slot
  }

  ghost predicate Tables(s: State) {
    && ServerFits(s) && SpuFits(s)
    && (forall k :: 0 <= k < |s.allocs| ==> AllocOk(s.allocs[k], k, s.counts, s.ea, s.server, s.spu))
    && Apart(s.allocs)
    && (forall q :: 0 <= q < SLOTS && Unowned(s.allocs, q) ==> s.counts[q] == -1)
  }

  /** While the SPU has the lock on q, `held` is the live allocation in slot q. */
  ghost predicate HeldOk(s: State) {
    forall q :: 0 <= q < QUEUES && Holds(s.spu, q) ==>
      0 <= s.held < |s.allocs| && s.allocs[s.held].slot == q && !s.allocs[s.held].freed
  }

  /** What a reservation guarantees about the copy that was loaded with it. */
  ghost predicate CopiesOk(s: State)
    requires ServerFits(s) && SpuFits(s)
  {
    ServerCopyOk(s) && SpuCopyOk(s)
  }

  ghost predicate ServerCopyOk(s: State)
    requires ServerFits(s)
  {
    match s.server
    case AllocMark(i, end, j) => s.counts[i + j] == -1 && (s.wordReserved ==> s.word == WordAt(s, i))
    case AllocStore(i, end, j) =>
      s.counts[i + j] == -1 && s.ea[i + j] == |s.allocs| && (s.wordReserved ==> s.word == WordAt(s, i))
    case DropStore(id) => s.wordReserved ==> s.word == WordAt(s, Base(s.allocs[id].slot))
    case FreeStore(id) => s.wordReserved ==>
      s.word == WordAt(s, Base(s.allocs[id].slot)) && s.counts[s.allocs[id].slot] <= 0
    case _ => true
  }

  ghost predicate SpuCopyOk(s: State)
    requires SpuFits(s)
  {
    match s.spu
    case Check(q) => s.lineReserved ==> s.line == s.counts[..LINE]
    case LockStore(q) => s.lineReserved ==> s.counts[q] > 0 && s.line == s.counts[..LINE][q := s.counts[q] + 1]
    case UnlockStore(q) => s.lineReserved ==> s.line == s.counts[..LINE][q := s.counts[q] - 1]
    case _ => true
  }

  ghost predicate Inv(s: State) {
    Tables(s) && HeldOk(s) && CopiesOk(s)
  }

  lemma InitInv()
    ensures Inv(Init())
  {
  }

  // ---- the server keeps it ----

  /** Storing a loaded word with one count replaced replaces that count. */
  lemma WordStored(counts: seq<int>, i: nat, j: nat, x: int)
    requires |counts| == SLOTS && i + 4 <= SLOTS && j < 4
    ensures counts[..i] + counts[i..i + 4][j := x] + counts[i + 4..] == counts[i + j := x]
  {
  }

  lemma LineStored(counts: seq<int>, q: nat, x: int)
    requires |counts| == SLOTS && q < LINE
    ensures counts[..LINE][q := x] + counts[LINE..] == counts[q := x]
  {
  }

  /** A step that leaves counts, addresses and records alone and does not change who is in the
      middle of what. */
  lemma TablesSame(s: State, r: State)
    requires Tables(s) && ServerFits(r) && SpuFits(r)
    requires r.counts == s.counts && r.ea == s.ea && r.allocs == s.allocs
    requires forall q :: 0 <= q < SLOTS ==> Holds(r.spu, q) == Holds(s.spu, q)
    requires forall k: nat :: k < |s.allocs| ==>
               && ((r.server == DropLoad(k) || r.server == DropStore(k)) <==> (s.server == DropLoad(k) || s.server == DropStore(k)))
               && (r.server == Unmapping(k) <==> s.server == Unmapping(k))
               && (r.server == FreeLoad(k) || r.server == FreeStore(k) ==> !s.allocs[k].freed)
    ensures Tables(r)
  {
    forall k | 0 <= k < |r.allocs| ensures AllocOk(r.allocs[k], k, r.counts, r.ea, r.server, r.spu) {
      assert AllocOk(s.allocs[k], k, s.counts, s.ea, s.server, s.spu);
    }
  }

  lemma StartAllocKeeps(s: State, commandQueue: bool)
    requires Inv(s) && s.server == Ready
    ensures Inv(StartAlloc(s, commandQueue))
  {
    TablesSame(s, StartAlloc(s, commandQueue));
  }

  lemma StartTryFreeKeeps(s: State, id: nat)
    requires Inv(s) && s.server == Ready && id < |s.allocs| && !s.allocs[id].freed
    ensures Inv(StartTryFree(s, id))
  {
    TablesSame(s, StartTryFree(s, id));
  }

  lemma StartDisposeKeeps(s: State, id: nat)
    requires Inv(s) && s.server == Ready && id < |s.allocs| && !s.allocs[id].freed && !s.allocs[id].disposed
    ensures Inv(StartDispose(s, id))
  {
    var r := StartDispose(s, id);
    forall k | 0 <= k < |r.allocs| ensures AllocOk(r.allocs[k], k, r.counts, r.ea, r.server, r.spu) {
      assert AllocOk(s.allocs[k], k, s.counts, s.ea, s.server, s.spu);
    }
    UnownedSame(s.allocs, r.allocs);
  }

  /** Who owns what depends only on slots and on what was freed. */
  lemma UnownedSame(a: seq<Alloc>, b: seq<Alloc>)
    requires |a| == |b| && forall k :: 0 <= k < |a| ==> a[k].slot == b[k].slot && a[k].freed == b[k].freed
    ensures forall q :: Unowned(a, q) == Unowned(b, q)
    ensures Apart(a) == Apart(b)
  {
    forall q ensures Unowned(a, q) == Unowned(b, q) {
      if Unowned(a, q) {
        forall k | 0 <= k < |b| && !b[k].freed ensures b[k].slot != q { assert !a[k].freed; }
      }
      if Unowned(b, q) {
        forall k | 0 <= k < |a| && !a[k].freed ensures a[k].slot != q { assert !b[k].freed; }
      }
    }
  }

  /** A slot whose count is -1 has no live allocation. */
  lemma NegativeIsUnowned(s: State, q: nat)
    requires Tables(s) && q < SLOTS && s.counts[q] == -1
    ensures Unowned(s.allocs, q)
  {
    forall k: nat | k < |s.allocs| && !s.allocs[k].freed ensures s.allocs[k].slot != q {
      LiveCount(s, k);
    }
  }

  lemma LiveCount(s: State, k: nat)
    requires Tables(s) && k < |s.allocs| && !s.allocs[k].freed
    ensures s.counts[s.allocs[k].slot] >= 0
  {
    assert AllocOk(s.allocs[k], k, s.counts, s.ea, s.server, s.spu);
  }

  lemma CountsAreSmall(s: State, q: nat)
    requires Tables(s) && q < SLOTS && s.counts[q] < 0
    ensures s.counts[q] == -1
  {
    forall k: nat | k < |s.allocs| && !s.allocs[k].freed ensures s.allocs[k].slot != q {
      LiveCount(s, k);
    }
  }

  /** The count that the allocator picks is free. */
  lemma FoundIsFree(s: State, i: nat)
    requires Tables(s) && i + 4 <= SLOTS
    ensures var j := FirstFree(WordAt(s, i)); j < 4 ==> s.counts[i + j] == -1
  {
    hide AllocOk, Apart, Unowned;
    var j := FirstFree(WordAt(s, i));
    if j < 4 {
      assert WordAt(s, i)[j] == s.counts[i + j];
      CountsAreSmall(s, i + j);
    }
  }

  lemma AllocLoadKeeps(s: State)
    requires Inv(s) && s.server.AllocLoad?
    ensures Inv(ServerStep(s))
  {
    hide AllocOk, FirstFree, Apart, Unowned, HeldOk;
    FoundIsFree(s, s.server.i);
    assert HeldOk(ServerStep(s)) by { HeldSame(s, ServerStep(s)); }
    TablesSame(s, ServerStep(s));
  }

  lemma HeldSame(s: State, r: State)
    requires HeldOk(s) && r.spu == s.spu && r.held == s.held && r.allocs == s.allocs
    ensures HeldOk(r)
  {
  }

  lemma AllocMarkKeeps(s: State)
    requires Inv(s) && s.server.AllocMark?
    ensures Inv(ServerStep(s))
  {
    var r := ServerStep(s);
    var q := s.server.i + s.server.j;
    NegativeIsUnowned(s, q);
    forall k | 0 <= k < |r.allocs| ensures AllocOk(r.allocs[k], k, r.counts, r.ea, r.server, r.spu) {
      assert AllocOk(s.allocs[k], k, s.counts, s.ea, s.server, s.spu);
    }
  }

  lemma AllocRetryKeeps(s: State)
    requires Inv(s) && s.server.AllocStore? && !s.wordReserved
    ensures Inv(ServerStep(s))
  {
    TablesSame(s, ServerStep(s));
  }

  lemma AllocStoreTables(s: State)
    requires Inv(s) && s.server.AllocStore? && s.wordReserved
    ensures ServerStep(s).counts == s.counts[s.server.i + s.server.j := 1]
    ensures Tables(ServerStep(s))
  {
    var r := ServerStep(s);
    var q := s.server.i + s.server.j;
    WordStored(s.counts, s.server.i, s.server.j, 1);
    NegativeIsUnowned(s, q);
    HeldIsOwned(s, q);
    forall k | 0 <= k < |r.allocs| ensures AllocOk(r.allocs[k], k, r.counts, r.ea, r.server, r.spu) {
      if k < |s.allocs| {
        assert AllocOk(s.allocs[k], k, s.counts, s.ea, s.server, s.spu);
      }
    }
    forall p | 0 <= p < SLOTS && Unowned(r.allocs, p) ensures r.counts[p] == -1 {
      assert r.allocs[|s.allocs|].slot == q;
      forall k | 0 <= k < |s.allocs| && !s.allocs[k].freed ensures s.allocs[k].slot != p {
        assert r.allocs[k] == s.allocs[k];
      }
    }
  }

  lemma HeldIsOwned(s: State, q: nat)
    requires HeldOk(s) && Unowned(s.allocs, q) && SpuFits(s)
    ensures !Holds(s.spu, q)
  {
  }

  lemma AllocStoreKeeps(s: State)
    requires Inv(s) && s.server.AllocStore?
    ensures Inv(ServerStep(s))
  {
    if s.wordReserved {
      AllocStoreTables(s);
      var r := ServerStep(s);
      assert HeldOk(r);
      CopiesAfterWord(s, r, s.server.i, s.server.j, 1);
    } else {
      AllocRetryKeeps(s);
    }
  }

  /** The SPU's copy of the line: its reservation is gone if the word was on its line. */
  lemma CopiesAfterWord(s: State, r: State, i: nat, j: nat, x: int)
    requires ServerFits(s) && SpuFits(s) && CopiesOk(s) && ServerFits(r) && SpuFits(r)
    requires i + 4 <= SLOTS && i % 4 == 0 && j < 4 && r.counts == s.counts[i + j := x]
    requires r.spu == s.spu && r.line == s.line && r.lineReserved == (s.lineReserved && i >= LINE)
    requires r.server == Ready || r.server.Unmapping?
    ensures CopiesOk(r)
  {
    if r.lineReserved {
      assert r.counts[..LINE] == s.counts[..LINE];
    }
  }

  lemma DropLoadKeeps(s: State)
    requires Inv(s) && s.server.DropLoad?
    ensures Inv(ServerStep(s))
  {
    TablesSame(s, ServerStep(s));
  }

  lemma DropStoreCounts(s: State)
    requires Tables(s) && s.server.DropStore? && s.wordReserved && !s.allocs[s.server.id].freed && CopiesOk(s)
    ensures var q := s.allocs[s.server.id].slot; ServerStep(s).counts == s.counts[q := s.counts[q] - 1]
  {
    var q := s.allocs[s.server.id].slot;
    assert WordAt(s, Base(q))[q % 4] == s.counts[q];
    WordStored(s.counts, Base(q), q % 4, s.counts[q] - 1);
  }

  lemma DropStoreTables(s: State)
    requires Inv(s) && s.server.DropStore? && s.wordReserved
    ensures var q := s.allocs[s.server.id].slot;
            ServerStep(s).counts == s.counts[q := s.counts[q] - 1] && Tables(ServerStep(s))
  {
    var r := ServerStep(s);
    var id := s.server.id;
    var q := s.allocs[id].slot;
    assert AllocOk(s.allocs[id], id, s.counts, s.ea, s.server, s.spu);
    assert CopiesOk(s);
    DropStoreCounts(s);
    hide CopiesOk, HeldOk;
    forall k: nat | k < |r.allocs| ensures AllocOk(r.allocs[k], k, r.counts, r.ea, r.server, r.spu) {
      DropAllocOk(s, k);
    }
    hide AllocOk, Apart, Unowned;
    UnownedSame(s.allocs, r.allocs);
    forall p | 0 <= p < SLOTS && Unowned(r.allocs, p) ensures r.counts[p] == -1 && p != q {
      OwnedByLive(r.allocs, id, p);
    }
  }

  lemma OwnedByLive(allocs: seq<Alloc>, k: nat, p: nat)
    requires k < |allocs| && Unowned(allocs, p) && !allocs[k].freed
    ensures allocs[k].slot != p
  {
  }

  lemma DropAllocOk(s: State, k: nat)
    requires Tables(s) && s.server.DropStore? && s.wordReserved && k < |s.allocs|
    requires !s.allocs[s.server.id].freed
    requires var q := s.allocs[s.server.id].slot; ServerStep(s).counts == s.counts[q := s.counts[q] - 1]
    ensures var r := ServerStep(s); AllocOk(r.allocs[k], k, r.counts, r.ea, r.server, r.spu)
  {
    hide Unowned;
    var id := s.server.id;
    assert AllocOk(s.allocs[k], k, s.counts, s.ea, s.server, s.spu);
    assert AllocOk(s.allocs[id], id, s.counts, s.ea, s.server, s.spu);
    assert k != id && !s.allocs[k].freed ==> s.allocs[k].slot != s.allocs[id].slot;
  }

  lemma DropStoreKeeps(s: State)
    requires Inv(s) && s.server.DropStore?
    ensures Inv(ServerStep(s))
  {
    if s.wordReserved {
      DropStoredKeeps(s);
    } else {
      TablesSame(s, ServerStep(s));
    }
  }

  lemma DropStoredKeeps(s: State)
    requires Inv(s) && s.server.DropStore? && s.wordReserved
    ensures Inv(ServerStep(s))
  {
    hide Tables, HeldOk, CopiesOk, ServerStep;
    InvFits(s);
    DropStoreTables(s);
    DropKeepsHeld(s);
    DropStoreShape(s);
    var r := ServerStep(s);
    TablesFit(r);
    var q := s.allocs[s.server.id].slot;
    CopiesAfterWord(s, r, Base(q), q % 4, s.counts[q] - 1);
  }

  lemma TablesFit(s: State)
    requires Tables(s)
    ensures ServerFits(s) && SpuFits(s)
  {
  }

  lemma DropStoreShape(s: State)
    requires ServerFits(s) && s.server.DropStore? && s.wordReserved
    ensures var r := ServerStep(s);
            && r.spu == s.spu && r.line == s.line && r.server == Ready
            && r.lineReserved == (s.lineReserved && Base(s.allocs[s.server.id].slot) >= LINE)
  {
  }

  lemma DropKeepsHeld(s: State)
    requires Inv(s) && s.server.DropStore?
    ensures HeldOk(ServerStep(s))
  {
    hide Tables, CopiesOk, WordAt;
    assert ServerFits(s) by { InvFits(s); }
  }

  lemma InvFits(s: State)
    requires Inv(s)
    ensures ServerFits(s) && SpuFits(s) && HeldOk(s)
  {
  }

  lemma FreeLoadKeeps(s: State)
    requires Inv(s) && s.server.FreeLoad?
    ensures Inv(ServerStep(s))
  {
    var r := ServerStep(s);
    var q := s.allocs[s.server.id].slot;
    assert AllocOk(s.allocs[s.server.id], s.server.id, s.counts, s.ea, s.server, s.spu);
    assert WordAt(s, Base(q))[q % 4] == s.counts[q];
    TablesSame(s, r);
  }

  lemma FreeStoreTables(s: State)
    requires Inv(s) && s.server.FreeStore? && s.wordReserved
    ensures var q := s.allocs[s.server.id].slot;
            ServerStep(s).counts == s.counts[q := -1] && Tables(ServerStep(s)) && !Holds(s.spu, q)
  {
    var r := ServerStep(s);
    var id := s.server.id;
    var q := s.allocs[id].slot;
    assert AllocOk(s.allocs[id], id, s.counts, s.ea, s.server, s.spu);
    WordStored(s.counts, Base(q), q % 4, -1);
    forall k | 0 <= k < |r.allocs| ensures AllocOk(r.allocs[k], k, r.counts, r.ea, r.server, r.spu) {
      assert AllocOk(s.allocs[k], k, s.counts, s.ea, s.server, s.spu);
    }
    forall p | 0 <= p < SLOTS && Unowned(r.allocs, p) ensures r.counts[p] == -1 {
      if p != q {
        forall k | 0 <= k < |s.allocs| && !s.allocs[k].freed ensures s.allocs[k].slot != p {
          assert k != id ==> r.allocs[k] == s.allocs[k];
        }
      }
    }
  }

  lemma FreeStoreKeeps(s: State)
    requires Inv(s) && s.server.FreeStore?
    ensures Inv(ServerStep(s))
  {
    var r := ServerStep(s);
    if s.wordReserved {
      var q := s.allocs[s.server.id].slot;
      FreeStoreTables(s);
      CopiesAfterWord(s, r, Base(q), q % 4, -1);
    } else {
      assert AllocOk(s.allocs[s.server.id], s.server.id, s.counts, s.ea, s.server, s.spu);
      TablesSame(s, r);
    }
  }

  lemma UnmappingKeeps(s: State)
    requires Inv(s) && s.server.Unmapping?
    ensures Inv(ServerStep(s))
  {
    var r := ServerStep(s);
    forall k | 0 <= k < |r.allocs| ensures AllocOk(r.allocs[k], k, r.counts, r.ea, r.server, r.spu) {
      assert AllocOk(s.allocs[k], k, s.counts, s.ea, s.server, s.spu);
    }
    UnownedSame(s.allocs, r.allocs);
  }

  lemma ServerKeeps(s: State)
    requires Inv(s)
    ensures Inv(ServerStep(s))
  {
    hide Inv, AllocOk, Apart, Unowned, HeldOk, CopiesOk;
    match s.server
    case Ready =>
    case AllocLoad(i, end) => AllocLoadKeeps(s);
    case AllocMark(i, end, j) => AllocMarkKeeps(s);
    case AllocStore(i, end, j) => AllocStoreKeeps(s);
    case DropLoad(id) => DropLoadKeeps(s);
    case DropStore(id) => DropStoreKeeps(s);
    case FreeLoad(id) => FreeLoadKeeps(s);
    case FreeStore(id) => FreeStoreKeeps(s);
    case Unmapping(id) => UnmappingKeeps(s);
  }

  // ---- the SPU keeps it ----

  /** An SPU step that stores nothing. */
  predicate SpuQuiet(s: State) {
    s.spu.Away? || s.spu.Load? || s.spu.Check? || s.spu.Inside? || s.spu.UnlockLoad? || !s.lineReserved
  }

  lemma SpuQuietTables(s: State, choice: nat)
    requires Tables(s) && HeldOk(s) && choice < QUEUES && SpuQuiet(s)
    ensures Tables(SpuStep(s, choice)) && HeldOk(SpuStep(s, choice))
  {
    hide AllocOk, Apart, Unowned, ServerFits;
    forall k: nat | k < |s.allocs| && (s.server == FreeLoad(k) || s.server == FreeStore(k))
      ensures !s.allocs[k].freed
    {
      FreeingIsLive(s, k);
    }
    QuietFrame(s, choice);
    QuietHolds(s, choice);
    hide SpuStep;
    FitsSame(s, SpuStep(s, choice));
    TablesSame(s, SpuStep(s, choice));
  }

  lemma FitsSame(s: State, r: State)
    requires ServerFits(s) && r.counts == s.counts && r.ea == s.ea && r.allocs == s.allocs && r.server == s.server && r.word == s.word
    ensures ServerFits(r)
  {
  }

  lemma QuietHolds(s: State, choice: nat)
    requires SpuFits(s) && choice < QUEUES && SpuQuiet(s) && HeldOk(s)
    ensures var r := SpuStep(s, choice);
            && SpuFits(r) && HeldOk(r) && forall q :: 0 <= q < SLOTS ==> Holds(r.spu, q) == Holds(s.spu, q)
  {
    QuietFrame(s, choice);
    QuietHold(s, choice);
    hide SpuStep;
  }

  lemma QuietHold(s: State, choice: nat)
    requires SpuFits(s) && choice < QUEUES && SpuQuiet(s)
    ensures var r := SpuStep(s, choice);
            SpuFits(r) && r.held == s.held && forall q :: 0 <= q < SLOTS ==> Holds(r.spu, q) == Holds(s.spu, q)
  {
  }

  lemma SpuQuietCopies(s: State, choice: nat)
    requires ServerFits(s) && SpuFits(s) && CopiesOk(s) && choice < QUEUES && SpuQuiet(s)
    ensures ServerFits(SpuStep(s, choice)) && SpuFits(SpuStep(s, choice)) && CopiesOk(SpuStep(s, choice))
  {
    QuietFrame(s, choice);
    ServerCopySame(s, SpuStep(s, choice));
    hide ServerCopyOk, ServerFits;
    if s.spu.UnlockLoad? {
      UnlockLoads(s, choice);
      hide SpuStep;
    }
  }

  /** A quiet step of the SPU touches nothing of the server's. */
  lemma QuietFrame(s: State, choice: nat)
    requires SpuFits(s) && choice < QUEUES && SpuQuiet(s)
    ensures var r := SpuStep(s, choice);
            && r.counts == s.counts && r.ea == s.ea && r.allocs == s.allocs && r.asked == s.asked
            && r.server == s.server && r.word == s.word && r.wordReserved == s.wordReserved
  {
  }

  lemma ServerCopySame(s: State, r: State)
    requires ServerFits(s) && ServerCopyOk(s)
    requires r.counts == s.counts && r.ea == s.ea && r.allocs == s.allocs
    requires r.server == s.server && r.word == s.word && r.wordReserved == s.wordReserved
    ensures ServerFits(r) && ServerCopyOk(r)
  {
  }

  lemma UnlockLoads(s: State, choice: nat)
    requires SpuFits(s) && s.spu.UnlockLoad? && choice < QUEUES
    ensures SpuStep(s, choice) == s.(line := s.counts[..LINE][s.spu.q := s.counts[s.spu.q] - 1], lineReserved := true,
                                     spu := UnlockStore(s.spu.q))
  {
  }

  lemma SpuQuietKeeps(s: State, choice: nat)
    requires Inv(s) && choice < QUEUES && SpuQuiet(s)
    ensures Inv(SpuStep(s, choice))
  {
    hide HeldOk, CopiesOk, AllocOk, Apart, Unowned;
    SpuQuietTables(s, choice);
    SpuQuietCopies(s, choice);
  }

  lemma FreeingIsLive(s: State, k: nat)
    requires Tables(s) && k < |s.allocs| && (s.server == FreeLoad(k) || s.server == FreeStore(k))
    ensures !s.allocs[k].freed
  {
    assert AllocOk(s.allocs[k], k, s.counts, s.ea, s.server, s.spu);
  }

  /** The server's copy of its word: its reservation is gone if the word was on the SPU's line. */
  lemma CopiesAfterLine(s: State, r: State, q: nat, x: int)
    requires ServerFits(s) && SpuFits(s) && CopiesOk(s) && ServerFits(r) && SpuFits(r)
    requires q < QUEUES && r.counts == s.counts[q := x] && s.counts[q] >= 0
    requires r.server == s.server && r.allocs == s.allocs && r.ea == s.ea && r.word == s.word
    requires r.wordReserved == (s.wordReserved && ServerOnOtherLine(s.server, s.allocs))
    requires !r.lineReserved
    ensures CopiesOk(r)
  {
  }

  lemma PositiveIsOwned(s: State, q: nat) returns (k: nat)
    requires Tables(s) && q < SLOTS && s.counts[q] >= 0
    ensures k < |s.allocs| && s.allocs[k].slot == q && !s.allocs[k].freed && s.ea[q] == k
  {
    hide AllocOk, Apart;
    k :| k < |s.allocs| && !s.allocs[k].freed && s.allocs[k].slot == q;
    LiveEa(s, k);
  }

  lemma LiveEa(s: State, k: nat)
    requires Tables(s) && k < |s.allocs| && !s.allocs[k].freed
    ensures s.ea[s.allocs[k].slot] == k
  {
    assert AllocOk(s.allocs[k], k, s.counts, s.ea, s.server, s.spu);
  }

  lemma SpuStored(s: State, r: State, q: nat, x: int)
    requires Tables(s) && q < QUEUES && ServerFits(r) && SpuFits(r) && s.counts[q] >= 0
    requires r.counts == s.counts[q := x] && r.allocs == s.allocs && r.server == s.server && r.ea == s.ea
    requires forall p :: 0 <= p < SLOTS && p != q ==> Holds(r.spu, p) == Holds(s.spu, p)
    requires x == s.counts[q] + (if Holds(r.spu, q) then 1 else 0) - (if Holds(s.spu, q) then 1 else 0)
    ensures Tables(r)
  {
    forall k | 0 <= k < |r.allocs| ensures AllocOk(r.allocs[k], k, r.counts, r.ea, r.server, r.spu) {
      assert AllocOk(s.allocs[k], k, s.counts, s.ea, s.server, s.spu);
    }
  }

  lemma LockKeeps(s: State, choice: nat)
    requires Inv(s) && choice < QUEUES && s.spu.LockStore? && s.lineReserved
    ensures Inv(SpuStep(s, choice))
  {
    hide AllocOk, Apart, Unowned;
    var r := SpuStep(s, choice);
    var q := s.spu.q;
    LineStored(s.counts, q, s.counts[q] + 1);
    var k := PositiveIsOwned(s, q);
    SpuStored(s, r, q, s.counts[q] + 1);
    CopiesAfterLine(s, r, q, s.counts[q] + 1);
  }

  lemma UnlockKeeps(s: State, choice: nat)
    requires Inv(s) && choice < QUEUES && s.spu.UnlockStore? && s.lineReserved
    ensures Inv(SpuStep(s, choice))
  {
    hide AllocOk, Apart, Unowned;
    var r := SpuStep(s, choice);
    var q := s.spu.q;
    LineStored(s.counts, q, s.counts[q] - 1);
    HeldCount(s, q);
    SpuStored(s, r, q, s.counts[q] - 1);
    CopiesAfterLine(s, r, q, s.counts[q] - 1);
  }

  lemma HeldCount(s: State, q: nat)
    requires Tables(s) && HeldOk(s) && q < QUEUES && Holds(s.spu, q)
    ensures s.counts[q] >= 1
  {
    assert AllocOk(s.allocs[s.held], s.held, s.counts, s.ea, s.server, s.spu);
  }

  lemma SpuKeeps(s: State, choice: nat)
    requires Inv(s) && choice < QUEUES
    ensures Inv(SpuStep(s, choice))
  {
    hide Inv;
    if s.spu.LockStore? && s.lineReserved {
      LockKeeps(s, choice);
    } else if s.spu.UnlockStore? && s.lineReserved {
      UnlockKeeps(s, choice);
    } else {
      SpuQuietKeeps(s, choice);
    }
  }

  // ---- runs ----

  datatype Action =
    | Allocate(commandQueue: bool)
    | Dispose(id: nat)
    | TryFree(id: nat)
    | ServerMoves
    | SpuMoves(choice: nat)
    | WordReservationLost
    | LineReservationLost

  /** The server runs one block management call at a time; freeBuffer and handleDisconnect
      dispose of a listed allocation once; processOutstandingRequests tries any listed one. */
  predicate Allowed(s: State, e: Action) {
    match e
    case Allocate(commandQueue) => s.server == Ready
    case Dispose(id) => s.server == Ready && id < |s.allocs| && !s.allocs[id].freed && !s.allocs[id].disposed
    case TryFree(id) => s.server == Ready && id < |s.allocs| && !s.allocs[id].freed
    case SpuMoves(choice) => choice < QUEUES
    case _ => true
  }

  ghost function Apply(s: State, e: Action): (r: State)
    requires Inv(s) && Allowed(s, e)
    ensures Inv(r)
  {
    match e
    case Allocate(commandQueue) => StartAllocKeeps(s, commandQueue); StartAlloc(s, commandQueue)
    case Dispose(id) => StartDisposeKeeps(s, id); StartDispose(s, id)
    case TryFree(id) => StartTryFreeKeeps(s, id); StartTryFree(s, id)
    case ServerMoves => ServerKeeps(s); ServerStep(s)
    case SpuMoves(choice) => SpuKeeps(s, choice); SpuStep(s, choice)
    case WordReservationLost => LossKeeps(s, false, s.lineReserved); s.(wordReserved := false)
    case LineReservationLost => LossKeeps(s, s.wordReserved, false); s.(lineReserved := false)
  }

  lemma LossKeeps(s: State, word: bool, line: bool)
    requires Inv(s) && (word ==> s.wordReserved) && (line ==> s.lineReserved)
    ensures Inv(s.(wordReserved := word, lineReserved := line))
  {
    TablesLoss(s, word, line);
  }

  lemma TablesLoss(s: State, word: bool, line: bool)
    requires Tables(s)
    ensures Tables(s.(wordReserved := word, lineReserved := line))
  {
  }

  /** The state after a run; an action that is not allowed when its turn comes is skipped. */
  ghost function After(run: seq<Action>): (r: State)
    ensures Inv(r)
    decreases |run|
  {
    if run == [] then InitInv(); Init()
    else
      var before := After(run[..|run| - 1]);
      if Allowed(before, run[|run| - 1]) then Apply(before, run[|run| - 1]) else before
  }

  /** The count of a slot is -1 exactly when no live allocation has it, and otherwise one for a
      client reference not yet dropped plus one while the SPU has the lock. */
  lemma CountsAreReferences(run: seq<Action>, q: nat)
    requires q < SLOTS
    ensures var s := After(run);
            && (s.counts[q] == -1 <==> Unowned(s.allocs, q))
            && forall k :: 0 <= k < |s.allocs| && !s.allocs[k].freed && s.allocs[k].slot == q ==>
                 s.counts[q] == (if s.allocs[k].drops == 0 then 1 else 0) + (if Holds(s.spu, q) then 1 else 0)
  {
    var s := After(run);
    forall k | 0 <= k < |s.allocs| && !s.allocs[k].freed && s.allocs[k].slot == q
      ensures s.counts[q] == (if s.allocs[k].drops == 0 then 1 else 0) + (if Holds(s.spu, q) then 1 else 0)
    {
      assert AllocOk(s.allocs[k], k, s.counts, s.ea, s.server, s.spu);
    }
  }

  /** No two live allocations share a slot. */
  lemma SlotsAreNotShared(run: seq<Action>, j: nat, k: nat)
    ensures var allocs := After(run).allocs;
            j < k < |allocs| && !allocs[j].freed && !allocs[k].freed ==> allocs[j].slot != allocs[k].slot
  {
  }

  /** While the SPU is inside a queue, the address it finds for it is that of an allocation that
      has that slot, is not freed and has not been unmapped. */
  lemma NeverUnmappedUnderTheSpu(run: seq<Action>)
    ensures var s := After(run);
            s.spu.Inside? ==>
              var q := s.spu.q;
              && q < QUEUES && 0 <= s.ea[q] < |s.allocs| && s.ea[q] == s.held
              && s.allocs[s.ea[q]].slot == q && !s.allocs[s.ea[q]].freed && s.allocs[s.ea[q]].unmaps == 0
  {
    var s := After(run);
    hide AllocOk, Apart, Unowned, CopiesOk;
    if s.spu.Inside? {
      assert Holds(s.spu, s.spu.q);
      LiveEa(s, s.held);
      LiveIsMapped(s, s.held);
    }
  }

  lemma LiveIsMapped(s: State, k: nat)
    requires Tables(s) && k < |s.allocs| && !s.allocs[k].freed
    ensures s.allocs[k].unmaps == 0
  {
    assert AllocOk(s.allocs[k], k, s.counts, s.ea, s.server, s.spu);
  }

  /** An allocation's reference is dropped at most once and its memory unmapped at most once;
      between the server's calls, exactly the disposed ones have been dropped and exactly the
      freed ones unmapped, and an allocation is freed only after it was disposed of. */
  lemma DisposedAndUnmappedOnce(run: seq<Action>, k: nat)
    requires k < |After(run).allocs|
    ensures var s := After(run);
            var a := s.allocs[k];
            && a.drops <= 1 && a.unmaps <= 1 && (a.freed ==> a.disposed && a.drops == 1)
            && (s.server == Ready ==> (a.disposed <==> a.drops == 1) && (a.freed <==> a.unmaps == 1))
  {
    var s := After(run);
    assert AllocOk(s.allocs[k], k, s.counts, s.ea, s.server, s.spu);
  }

  /** blockManagementTryFree and n further steps of the server, with nobody interfering. */
  ghost function TryFreeAlone(s: State, id: nat, n: nat): (r: State)
    requires Inv(s) && Allowed(s, TryFree(id))
    ensures Inv(r)
  {
    if n == 0 then StartTryFreeKeeps(s, id); StartTryFree(s, id)
    else
      var before := TryFreeAlone(s, id, n - 1);
      ServerKeeps(before);
      ServerStep(before)
  }

  ghost predicate InUse(s: State, id: nat)
    requires id < |s.allocs|
  {
    s.allocs[id].drops == 0 || Holds(s.spu, s.allocs[id].slot)
  }

  lemma CountOfLive(s: State, id: nat)
    requires Tables(s) && id < |s.allocs| && !s.allocs[id].freed
    ensures var q := s.allocs[id].slot;
            && q < SLOTS && WordAt(s, Base(q))[q % 4] == s.counts[q]
            && (s.counts[q] > 0 <==> InUse(s, id)) && s.allocs[id].unmaps == 0
  {
    hide Apart, Unowned;
    assert AllocOk(s.allocs[id], id, s.counts, s.ea, s.server, s.spu);
  }

  /** Trying to free a listed allocation that is still in use changes no table and no record. */
  lemma NotFreedWhileInUse(s: State, id: nat)
    requires Inv(s) && Allowed(s, TryFree(id)) && InUse(s, id)
    ensures var r := TryFreeAlone(s, id, 1);
            r.server == Ready && r.allocs == s.allocs && r.counts == s.counts
  {
    hide AllocOk, Apart, Unowned, HeldOk, CopiesOk;
    CountOfLive(s, id);
    assert TryFreeAlone(s, id, 0) == StartTryFree(s, id);
  }

  /** The three steps of a try that succeeds: load, store, unmap. */
  lemma FreeingSteps(x: State, id: nat)
    requires ServerFits(x) && x.server == FreeLoad(id) && x.counts[x.allocs[id].slot] <= 0
    ensures var i := Base(x.allocs[id].slot);
            var y := x.(word := WordAt(x, i), wordReserved := true, server := FreeStore(id));
            var z := y.(counts := x.counts[x.allocs[id].slot := -1], wordReserved := false,
                        lineReserved := x.lineReserved && i >= LINE,
                        allocs := x.allocs[id := x.allocs[id].(freed := true)], server := Unmapping(id));
            && ServerStep(x) == y && ServerFits(y) && ServerStep(y) == z && ServerFits(z)
  {
    var q := x.allocs[id].slot;
    assert WordAt(x, Base(q))[q % 4] == x.counts[q];
    WordStored(x.counts, Base(q), q % 4, -1);
  }

  /** One that is not in use any more is unmapped, and its count is -1 again. */
  lemma FreedWhenUnused(s: State, id: nat)
    requires Inv(s) && Allowed(s, TryFree(id)) && !InUse(s, id)
    ensures var r := TryFreeAlone(s, id, 3);
            && r.server == Ready && r.counts == s.counts[s.allocs[id].slot := -1]
            && r.allocs == s.allocs[id := s.allocs[id].(freed := true, unmaps := 1)]
  {
    hide AllocOk, Apart, Unowned, HeldOk, CopiesOk, WordAt, SpuFits;
    CountOfLive(s, id);
    ThreeSteps(s, id);
    hide TryFreeAlone, ServerStep, Tables, Inv;
    FreedInThree(StartTryFree(s, id), id);
  }

  lemma FreedInThree(x: State, id: nat)
    requires ServerFits(x) && x.server == FreeLoad(id) && x.counts[x.allocs[id].slot] <= 0 && x.allocs[id].unmaps == 0
    ensures ServerFits(ServerStep(x)) && ServerFits(ServerStep(ServerStep(x)))
    ensures var r := ServerStep(ServerStep(ServerStep(x)));
            && r.server == Ready && r.counts == x.counts[x.allocs[id].slot := -1]
            && r.allocs == x.allocs[id := x.allocs[id].(freed := true, unmaps := 1)]
  {
    hide ServerStep, WordAt;
    FreeingSteps(x, id);
    hide ServerFits;
    UnmappingStep(ServerStep(ServerStep(x)), id);
  }

  lemma ThreeSteps(s: State, id: nat)
    requires Inv(s) && Allowed(s, TryFree(id))
    ensures var a := StartTryFree(s, id);
            && ServerFits(a) && ServerFits(ServerStep(a)) && ServerFits(ServerStep(ServerStep(a)))
            && TryFreeAlone(s, id, 3) == ServerStep(ServerStep(ServerStep(a)))
  {
    var a, b, c := TryFreeAlone(s, id, 0), TryFreeAlone(s, id, 1), TryFreeAlone(s, id, 2);
    InvFits(a);
    InvFits(b);
    InvFits(c);
    hide Inv, ServerStep, ServerFits;
    assert b == ServerStep(a) && c == ServerStep(b);
  }

  lemma UnmappingStep(z: State, id: nat)
    requires ServerFits(z) && z.server == Unmapping(id)
    ensures var r := ServerStep(z);
            && r.server == Ready && r.counts == z.counts
            && r.allocs == z.allocs[id := z.allocs[id].(unmaps := z.allocs[id].unmaps + 1)]
  {
  }
}
