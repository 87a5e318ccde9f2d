/** The cost of the window: when a refill is enough, what happens when it is not, and how many
    refills a run needs. */
module FifoCost {
  import opened FifoFormat
  import opened CommandFifo
  import opened FifoRuns

  // ---- one refill ----

  /** write_ptr, as the SPU last read it, points into the middle of the command at rptr. */
  predicate Cut(s: State, c: Cmd) {
    s.rptr < s.wptr < s.rptr + Bytes(c)
  }

  /** The command fits into the window behind its distance from the start of its 128-byte line,
      and is not cut. */
  predicate Fits(s: State, c: Cmd) {
    s.rptr % 128 + Bytes(c) <= FIFO_SIZE && !Cut(s, c)
  }

  /** A refill makes the next command visible exactly when it fits. */
  lemma RefillSuffices(s: State)
    requires Inv(s) && s.pc == Fill
    ensures Pending(s) != [] && (Visible(FillStep(s)) <==> Fits(s, Pending(s)[0]))
  {
    hide WindowAgrees;
    SomethingToRead(s);
    HeadInMemory(s);
    hide Inv;
    var r := FillStep(s);
    var c := Pending(s)[0];
    assert s.rptr - r.ofs == s.rptr % 128;
    if r.ofs + r.len >= s.rptr + 4 {
      FilledWord(s, s.rptr);
      HeadRoundTrip(c);
    }
  }

  lemma HeadInMemory(s: State)
    requires Inv(s) && (s.pc == Fill || s.pc == Retry) && Pending(s) != []
    ensures s.rptr >= 0 && s.rptr % 4 == 0 && s.wptr != s.rptr
    ensures Valid(Pending(s)[0]) && Word(s.mem, s.rptr) == HeadWord(Pending(s)[0])
  {
  }

  /** A payload of up to 224 words always has room; of 225 it does not at the end of a line. */
  lemma PayloadBound(p: int, c: Cmd)
    requires p >= 0 && p % 4 == 0
    ensures |c.data| <= 224 ==> p % 128 + Bytes(c) <= FIFO_SIZE
    ensures |c.data| > 224 && p % 128 == 124 ==> p % 128 + Bytes(c) > FIFO_SIZE
  {
  }

  // ---- when the command does not fit ----

  /** The SPU is between the refill and the next look, with a command that does not fit. */
  ghost predicate Stuck(s: State) {
    && Inv(s) && (s.pc == Fill || (s.pc == Retry && !Visible(s)))
    && Pending(s) != [] && !Fits(s, Pending(s)[0])
  }

  lemma StuckStays(s: State, e: Action)
    requires Stuck(s) && Allowed(s, e)
    ensures Stuck(Apply(s, e)) && Apply(s, e).done == s.done
  {
    ApplyKeeps(s, e);
    match e
    case SpuMoves(refuses) => StuckMoves(s, refuses);
    case ClientPublishes(c) =>
      hide Inv;
      assert Publish(s, c).published[|s.done|..][0] == Pending(s)[0];
      assert AreaWord(Publish(s, c), s.rptr) == AreaWord(s, s.rptr);
    case ClientWrites(a, v) =>
      hide Inv;
      assert AreaWord(ClientWrite(s, a, v), s.rptr) == AreaWord(s, s.rptr);
    case OtherQueueRuns(area, ofs, len) =>
    case ReservationLost =>
      hide Inv;
      assert AreaWord(LoseReservation(s), s.rptr) == AreaWord(s, s.rptr);
  }

  lemma StuckMoves(s: State, refuses: bool)
    requires Stuck(s) && Inv(SpuStep(s, refuses))
    ensures Stuck(SpuStep(s, refuses)) && SpuStep(s, refuses).done == s.done
  {
    if s.pc == Fill {
      RefillSuffices(s);
      hide Inv, Visible;
    } else {
      hide Inv, Visible;
    }
  }

  /** A command that does not fit stops the queue for good: whatever the client does, and however
      often the SPU refills its window, nothing more is completed. */
  lemma {:induction false} EndlessRefill(s: State, run: seq<Action>)
    requires Inv(s) && s.pc == Fill && Legal(s, run)
    ensures Pending(s) != []
    ensures !Fits(s, Pending(s)[0]) ==>
              After(s, run).done == s.done && (After(s, run).pc == Fill || After(s, run).pc == Retry)
    decreases |run|
  {
    SomethingToRead(s);
    if !Fits(s, Pending(s)[0]) {
      StuckRun(s, run);
    }
  }

  lemma {:induction false} StuckRun(s: State, run: seq<Action>)
    requires Stuck(s) && Legal(s, run)
    ensures Stuck(After(s, run)) && After(s, run).done == s.done
    decreases |run|
  {
    if run != [] {
      LegalFront(s, run);
      hide Stuck, Apply, Allowed, Legal;
      StuckRun(s, run[..|run| - 1]);
      StuckStays(After(s, run[..|run| - 1]), run[|run| - 1]);
    }
  }

  // ---- two runs that get there ----

  /** A state that a legal run reaches. */
  ghost predicate Reached(first: State, s: State) {
    exists run :: Legal(first, run) && After(first, run) == s
  }

  lemma ReachedByNothing(first: State)
    ensures Reached(first, first)
  {
    NothingRun(first);
  }

  lemma ReachedStep(first: State, s: State, e: Action)
    requires Reached(first, s) && Allowed(s, e)
    ensures Reached(first, Apply(s, e))
  {
    var run :| Legal(first, run) && After(first, run) == s;
    hide Allowed, Apply, Legal, After;
    RunExtends(first, run, e);
  }

  /** A fresh queue with both pointers at p, over memory that reads as zero. */
  function StartAt(p: int): State {
    State(map[], p, p, false, 0, Idle, 0, 0, [], 0, 0, false, [], [], 0, p)
  }

  /** The client writes a head word at p and publishes that command, then a second one; the SPU
      enters and finds its window empty. */
  lemma PublishOne(first: State, s: State, c: Cmd) returns (r: State)
    requires Reached(first, s) && s.pc == Idle && Pending(s) == [] && Valid(c)
    requires forall k :: 0 <= k < |c.data| ==> Word(s.mem, s.write + 4 + 4 * k) == c.data[k]
    ensures r == Publish(ClientWrite(s, s.write, HeadWord(c)), c) && Reached(first, r)
  {
    ReachedStep(first, s, ClientWrites(s.write, HeadWord(c)));
    r := ClientWrite(s, s.write, HeadWord(c));
    assert Holds(r.mem, r.write, c);
    ReachedStep(first, r, ClientPublishes(c));
    r := Publish(r, c);
  }

  lemma SpuEnters(first: State, s: State) returns (r: State)
    requires Reached(first, s) && s.pc == Idle && !s.tagged && s.write != s.read
    ensures r == Enter(s).(pc := Fill) && Reached(first, r)
  {
    ReachedStep(first, s, SpuMoves(false));
    r := Enter(s);
    ReachedStep(first, r, SpuMoves(false));
    r := LoopTest(r);
  }

  lemma ReachedInv(first: State, s: State)
    requires Fresh(first) && Reached(first, s)
    ensures Inv(s)
  {
    var run :| Legal(first, run) && After(first, run) == s;
    hide Legal, Fresh, Inv, After;
    RunKeeps(first, run);
  }

  /** What the SPU sees on entering an untouched queue at p. */
  function Entered(p: int, mem: Memory, write: int, published: seq<Cmd>): State {
    State(mem, write, p, true, write, Fill, write, p, [], 0, 0, false, published, [], |published|, write)
  }

  /** 225 words of payload at the end of a line. */
  const LONG: Cmd := Cmd(5, seq(225, k => 0))

  lemma LongReached()
    ensures Reached(StartAt(252), Entered(252, map[252 := HeadWord(LONG)], 1156, [LONG]))
  {
    hide Reached;
    var first := StartAt(252);
    ReachedByNothing(first);
    var s := PublishOne(first, first, LONG);
    s := SpuEnters(first, s);
    assert s == Entered(252, map[252 := HeadWord(LONG)], 1156, [LONG]);
  }

  lemma LongCommandStops() returns (s: State)
    ensures Fresh(StartAt(252)) && Reached(StartAt(252), s)
    ensures Stuck(s) && |Pending(s)[0].data| == 225 && !Cut(s, Pending(s)[0])
  {
    s := Entered(252, map[252 := HeadWord(LONG)], 1156, [LONG]);
    LongReached();
    LongFresh();
    hide Fresh, Reached, Inv;
    ReachedInv(StartAt(252), s);
    EnteredIsStuck(252, map[252 := HeadWord(LONG)], 1156, [LONG]);
  }

  lemma LongFresh()
    ensures Fresh(StartAt(252)) && |LONG.data| == 225
  {
  }

  lemma EnteredIsStuck(p: int, mem: Memory, write: int, cmds: seq<Cmd>)
    requires cmds != [] && Inv(Entered(p, mem, write, cmds)) && !Fits(Entered(p, mem, write, cmds), cmds[0])
    ensures Pending(Entered(p, mem, write, cmds)) == cmds && Stuck(Entered(p, mem, write, cmds))
  {
    hide Inv;
  }

  /** Two words of payload, and behind it a jump that leads into their middle: the SPU then takes
      write_ptr to be there. */
  const SHORT: Cmd := Cmd(5, [0, 0])
  const INTO: Cmd := Cmd(JUMP, [132])

  function CutMemory(): Memory {
    map[128 := HeadWord(SHORT), 140 := HeadWord(INTO), 144 := 132]
  }

  lemma CutReached()
    ensures Reached(StartAt(128), Entered(128, CutMemory(), 132, [SHORT, INTO]))
  {
    hide Reached;
    var first := StartAt(128);
    ReachedByNothing(first);
    var a := PublishOne(first, first, SHORT);
    assert a.write == 140 && Pending(a) == [SHORT];
    var b := JumpPublished(first, a);
    var s := SpuEnters(first, b);
    assert s == Entered(128, CutMemory(), 132, [SHORT, INTO]);
  }

  lemma NotInShort(a: int)
    requires a >= 140
    ensures !InUse(128, [SHORT], a)
  {
    assert [SHORT][1..] == [];
  }

  lemma JumpPublished(first: State, a: State) returns (r: State)
    requires Reached(first, a) && a.pc == Idle && a.write == 140 && a.read == 128 && Pending(a) == [SHORT]
    ensures r == Publish(ClientWrite(ClientWrite(a, 140, HeadWord(INTO)), 144, 132), INTO) && Reached(first, r)
  {
    hide Reached;
    NotInShort(140);
    NotInShort(144);
    var b := ClientWrite(a, 140, HeadWord(INTO));
    ReachedStep(first, a, ClientWrites(140, HeadWord(INTO)));
    assert Pending(b) == [SHORT];
    ReachedStep(first, b, ClientWrites(144, 132));
    var c := ClientWrite(b, 144, 132);
    assert Word(c.mem, 144) == 132;
    ReachedStep(first, c, ClientPublishes(INTO));
    r := Publish(c, INTO);
  }

  lemma JumpIntoCommandStops() returns (s: State)
    ensures Fresh(StartAt(128)) && Reached(StartAt(128), s)
    ensures Stuck(s) && |Pending(s)[0].data| == 2 && Cut(s, Pending(s)[0])
  {
    s := Entered(128, CutMemory(), 132, [SHORT, INTO]);
    CutReached();
    assert Fresh(StartAt(128));
    hide Fresh, Reached, Inv;
    ReachedInv(StartAt(128), s);
    EnteredIsStuck(128, CutMemory(), 132, [SHORT, INTO]);
  }

  // ---- runs in which write_ptr never points into an unread command ----

  /** w is not in the middle of one of the commands. */
  ghost predicate Clear(p: int, cmds: seq<Cmd>, w: int)
    decreases |cmds|
  {
    cmds != [] ==> !(p < w < p + Bytes(cmds[0])) && Clear(Next(p, cmds[0]), cmds[1..], w)
  }

  /** What the client publishes does not leave write_ptr in the middle of an unread command. */
  ghost predicate Tidy(s: State, e: Action) {
    e.ClientPublishes? ==> Clear(Position(s), Pending(s) + [e.c], Next(s.write, e.c))
  }

  ghost predicate TidyRun(s: State, run: seq<Action>) {
    Legal(s, run) && forall k :: 0 <= k < |run| ==> Tidy(After(s, run[..k]), run[k])
  }

  lemma TidyFront(s: State, run: seq<Action>)
    requires TidyRun(s, run) && run != []
    ensures TidyRun(s, run[..|run| - 1])
    ensures Allowed(After(s, run[..|run| - 1]), run[|run| - 1]) && Tidy(After(s, run[..|run| - 1]), run[|run| - 1])
  {
    hide After, Allowed, Tidy, Legal;
    LegalFront(s, run);
    var front := run[..|run| - 1];
    forall k | 0 <= k < |front| ensures Tidy(After(s, front[..k]), front[k]) {
      assert front[..k] == run[..k] && Tidy(After(s, run[..k]), run[k]);
    }
  }

  /** Neither write_ptr nor the SPU's copy of it is in the middle of an unread command. */
  ghost predicate PointersClear(s: State) {
    && Clear(Position(s), Pending(s), s.write)
    && (s.pc == Loop || s.pc == Retry || s.pc == Fill ==>
          |s.done| <= s.seen <= |s.published| && Clear(s.rptr, s.published[|s.done|..s.seen], s.wptr))
  }

  lemma {:induction false} ClearFewer(p: int, cmds: seq<Cmd>, c: Cmd, w: int)
    requires Clear(p, cmds + [c], w)
    ensures Clear(p, cmds, w)
    decreases |cmds|
  {
    if cmds != [] {
      assert (cmds + [c])[1..] == cmds[1..] + [c];
      ClearFewer(Next(p, cmds[0]), cmds[1..], c, w);
    }
  }

  lemma PointersStayClear(s: State, e: Action)
    requires Inv(s) && PointersClear(s) && Allowed(s, e) && Tidy(s, e)
    ensures PointersClear(Apply(s, e))
  {
    match e
    case ClientWrites(a, v) =>
    case ClientPublishes(c) => PublishClear(s, c);
    case OtherQueueRuns(area, ofs, len) =>
    case ReservationLost =>
    case SpuMoves(refuses) => MoveClear(s, refuses);
  }

  lemma PublishClear(s: State, c: Cmd)
    requires Inv(s) && PointersClear(s) && Tidy(s, ClientPublishes(c))
    ensures PointersClear(Publish(s, c))
  {
    hide Layout, WindowAgrees, Clear;
    var r := Publish(s, c);
    assert Pending(r) == Pending(s) + [c];
    if s.pc == Loop || s.pc == Retry || s.pc == Fill {
      assert r.published[|r.done|..r.seen] == s.published[|s.done|..s.seen];
    }
  }

  lemma MoveClear(s: State, refuses: bool)
    requires Inv(s) && PointersClear(s)
    ensures PointersClear(SpuStep(s, refuses))
  {
    var r := SpuStep(s, refuses);
    if s.pc == Retry {
      RetryClear(s, refuses);
    } else {
      hide Layout, WindowAgrees, Clear, SnapshotOk;
      assert s.published[|s.done|..] == s.published[|s.done|..|s.published|];
    }
  }

  lemma RetryClear(s: State, refuses: bool)
    requires Inv(s) && PointersClear(s) && s.pc == Retry
    ensures PointersClear(RetryStep(s, refuses))
  {
    hide Layout, WindowAgrees, Visible, DecodeWindow, Inv, Clear, DecodeAt;
    SnapshotRead(s);
    if !Visible(s) {
    } else if refuses && DecodeWindow(s).op != JUMP {
      WindowShowsNext(s);
    } else {
      WindowShowsNext(s);
      NextIsValid(s);
      ClearRest(s);
      CompletedOne(s, refuses);
      hide RetryStep;
    }
  }

  /** What completing the next command leaves. */
  lemma CompletedOne(s: State, refuses: bool)
    requires s.pc == Retry && Visible(s) && Pending(s) != [] && DecodeWindow(s) == Pending(s)[0] && s.done <= s.published
    requires Valid(Pending(s)[0]) && (refuses ==> Pending(s)[0].op == JUMP)
    ensures var r := RetryStep(s, refuses);
            && Pending(r) == Pending(s)[1..] && r.rptr == Next(s.rptr, Pending(s)[0]) && r.write == s.write
            && (r.pc == JumpUpdate || r.pc == Update)
  {
    hide Visible, DecodeWindow;
    assert s.published == s.done + Pending(s);
  }

  lemma ClearRest(s: State)
    requires PointersClear(s) && s.pc == Retry && Pending(s) != []
    ensures Clear(Next(s.rptr, Pending(s)[0]), Pending(s)[1..], s.write)
  {
    hide Next;
  }

  lemma SnapshotRead(s: State)
    requires Inv(s) && (s.pc == Loop || s.pc == Retry || s.pc == Fill)
    ensures s.read == s.rptr && s.done <= s.published
  {
  }

  lemma {:induction false} TidyIsClear(s: State, run: seq<Action>)
    requires Fresh(s) && TidyRun(s, run)
    ensures Inv(After(s, run)) && PointersClear(After(s, run))
    decreases |run|
  {
    RunKeeps(s, run);
    if run != [] {
      TidyFront(s, run);
      hide Inv, PointersClear, Apply, Allowed, Tidy, TidyRun, Legal;
      var front := run[..|run| - 1];
      TidyIsClear(s, front);
      PointersStayClear(After(s, front), run[|run| - 1]);
    }
  }

  /** So in such a run nothing is ever cut: a refill is enough exactly if the command has room. */
  lemma {:induction false} RefillSufficesInTidyRuns(s: State, run: seq<Action>)
    requires Fresh(s) && TidyRun(s, run)
    ensures var r := After(s, run);
            r.pc == Fill ==>
              && Pending(r) != []
              && (Visible(FillStep(r)) <==> r.rptr % 128 + Bytes(Pending(r)[0]) <= FIFO_SIZE)
  {
    TidyIsClear(s, run);
    var r := After(s, run);
    if r.pc == Fill {
      SomethingToRead(r);
      NotCut(r);
      RefillSuffices(r);
    }
  }

  lemma NotCut(s: State)
    requires Inv(s) && PointersClear(s) && (s.pc == Fill || s.pc == Retry) && Pending(s) != []
    ensures !Cut(s, Pending(s)[0])
  {
    hide Layout, WindowAgrees;
    SomethingToRead(s);
    assert s.published[|s.done|..s.seen][0] == Pending(s)[0];
  }

  // ---- how many refills a run needs ----

  ghost predicate Short(cmds: seq<Cmd>) {
    forall k :: 0 <= k < |cmds| ==> |cmds[k].data| <= 224
  }

  /** The refills of a run; the times a command refused; whether the SPU's last move was a refill. */
  function Refills(s: State, run: seq<Action>): nat {
    if run == [] then 0
    else
      var front := run[..|run| - 1];
      Refills(s, front) + if run[|run| - 1].SpuMoves? && After(s, front).pc == Fill then 1 else 0
  }

  function Refusals(s: State, run: seq<Action>): nat {
    if run == [] then 0
    else
      var front := run[..|run| - 1];
      var e := run[|run| - 1];
      var was := After(s, front);
      Refusals(s, front) + if e.SpuMoves? && was.pc == Retry && SpuStep(was, e.refuses).pc == Idle then 1 else 0
  }

  function JustRefilled(s: State, run: seq<Action>): bool {
    run != [] &&
    var front := run[..|run| - 1];
    if run[|run| - 1].SpuMoves? then After(s, front).pc == Fill else JustRefilled(s, front)
  }

  /** The refills so far are paid for by completed commands and refusals, but for one whose command
      is visible now. */
  ghost predicate Paid(s: State, run: seq<Action>) {
    var r := After(s, run);
    && Refills(s, run) <= |r.done| + Refusals(s, run) + (if JustRefilled(s, run) then 1 else 0)
    && (JustRefilled(s, run) ==> r.pc == Retry && Visible(r))
  }

  /** In a run whose commands have up to 224 words of payload and whose write_ptr never points into
      an unread command, whatever the client does in between: every refill but the last shows a
      command that is then completed or refuses, so that there are at most as many refills as
      completed commands and refusals, and one. */
  lemma {:induction false} OneRefillPerCommand(s: State, run: seq<Action>)
    requires Fresh(s) && TidyRun(s, run) && Short(After(s, run).published)
    ensures Paid(s, run)
    decreases |run|
  {
    if run != [] {
      var front, e := run[..|run| - 1], run[|run| - 1];
      TidyFront(s, run);
      TidyIsClear(s, front);
      hide Inv, PointersClear, Apply, Allowed, Tidy, TidyRun, Legal, Short;
      ShortBefore(After(s, front), e);
      OneRefillPerCommand(s, front);
      PaidStep(s, run);
    }
  }

  lemma ShortBefore(s: State, e: Action)
    requires Short(Apply(s, e).published)
    ensures Short(s.published)
  {
    assert forall k :: 0 <= k < |s.published| ==> Apply(s, e).published[k] == s.published[k];
  }

  lemma PaidStep(s: State, run: seq<Action>)
    requires run != [] && Paid(s, run[..|run| - 1])
    requires var r := After(s, run[..|run| - 1]);
             Inv(r) && PointersClear(r) && Allowed(r, run[|run| - 1]) && Short(r.published)
    ensures Paid(s, run)
  {
    var front, e := run[..|run| - 1], run[|run| - 1];
    var r := After(s, front);
    if e.SpuMoves? {
      MovePays(r, e.refuses);
    } else {
      SameView(r, e);
    }
    hide Inv, PointersClear, Allowed, Short, Visible, SpuStep;
  }

  /** Others do not change what the SPU does next, nor what it sees. */
  lemma SameView(s: State, e: Action)
    requires Allowed(s, e) && !e.SpuMoves?
    ensures Apply(s, e).pc == s.pc && Apply(s, e).done == s.done
    ensures s.pc == Retry ==> Visible(Apply(s, e)) == Visible(s)
  {
  }

  /** A refill shows the next command; looking at a visible one completes it or refuses it. */
  lemma MovePays(s: State, refuses: bool)
    requires Inv(s) && PointersClear(s) && Short(s.published)
    ensures var r := SpuStep(s, refuses);
            && |s.done| <= |r.done|
            && (s.pc == Fill ==> r.pc == Retry && Visible(r) && |r.done| == |s.done|)
            && (s.pc == Retry && Visible(s) ==> |r.done| == |s.done| + 1 || r.pc == Idle)
  {
    if s.pc == Fill {
      SomethingToRead(s);
      NotCut(s);
      HeadInMemory(s);
      PayloadBound(s.rptr, Pending(s)[0]);
      RefillSuffices(s);
    }
    hide Inv, PointersClear, Visible, DecodeWindow;
  }
}
