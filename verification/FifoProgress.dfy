/** The SPU gets on: left alone it completes what is published and comes to rest, unless write_ptr has come
    round to a command that is not read yet. */
module FifoProgress {
  import opened FifoFormat
  import opened CommandFifo
  import opened FifoRuns
  import opened FifoCost
  import opened FifoRefusals

  /** n moves of the SPU, with nobody interfering and no handler refusing. */
  function Alone(s: State, n: nat): State {
    if n == 0 then s else SpuStep(Alone(s, n - 1), false)
  }

  /** There is nothing to do for it. */
  predicate Rest(s: State) {
    (s.pc == Idle && s.read == s.write) || (s.pc == Loop && s.wptr == s.rptr == s.write)
  }

  /** How many moves it is at most to the next completed command, or to rest. */
  function Rank(s: State): nat {
    match s.pc
    case Update => if s.reserved then 7 else 8
    case JumpUpdate => if s.reserved then 7 else 8
    case Loop => if s.wptr == s.rptr then 6 else 4
    case Idle => 5
    case Retry => if Visible(s) then 1 else 3
    case Fill => 2
  }

  /** What every state of a tidy run with short payloads has. */
  ghost predicate Fine(s: State) {
    Inv(s) && PointersClear(s) && Short(s.published)
  }

  lemma FineStep(s: State)
    requires Fine(s)
    ensures Fine(SpuStep(s, false)) && SpuStep(s, false).published == s.published && SpuStep(s, false).write == s.write
  {
    hide Inv, PointersClear, Short;
    ApplyKeeps(s, SpuMoves(false));
    MoveClear(s, false);
    PublishedStays(s);
  }

  lemma PublishedStays(s: State)
    requires Inv(s)
    ensures SpuStep(s, false).published == s.published && SpuStep(s, false).write == s.write
  {
    hide Layout, WindowAgrees, SnapshotOk, Visible, DecodeWindow;
  }

  /** A move completes a command or brings the next completion, or rest, nearer. */
  lemma GetsOn(s: State)
    requires Fine(s) && !Rest(s)
    ensures var r := SpuStep(s, false);
            || (Pending(s) != [] && r.done == s.done + [Pending(s)[0]] && Pending(r) == Pending(s)[1..] && Position(r) == Next(Position(s), Pending(s)[0]))
            || (r.done == s.done && Pending(r) == Pending(s) && Position(r) == Position(s) && (Rest(r) || Rank(r) < Rank(s)))
  {
    if s.pc == Retry && Visible(s) {
      Completes(s);
    } else if s.pc == Fill {
      Refills(s);
    } else {
      Moves(s);
    }
    hide Inv, PointersClear, Short, Visible, DecodeWindow, SpuStep;
  }

  lemma Completes(s: State)
    requires Inv(s) && s.pc == Retry && Visible(s)
    ensures var r := SpuStep(s, false);
            Pending(s) != [] && r.done == s.done + [Pending(s)[0]] && Pending(r) == Pending(s)[1..] && Position(r) == Next(s.rptr, Pending(s)[0])
  {
    WindowShowsNext(s);
    NextIsHeld(s);
    SnapshotRead(s);
    hide Inv, Visible, DecodeWindow, DecodeAt, Holds;
    CompletedOne(s, false);
  }

  lemma Refills(s: State)
    requires Inv(s) && PointersClear(s) && Short(s.published) && s.pc == Fill
    ensures var r := SpuStep(s, false);
            r.done == s.done && Pending(r) == Pending(s) && Position(r) == Position(s) && Rank(r) < Rank(s)
  {
    MovePays(s, false);
    FillFrame(s);
    hide Inv, PointersClear, Short, Visible, FillStep;
  }

  lemma Moves(s: State)
    requires Inv(s) && !Rest(s) && s.pc != Fill && !(s.pc == Retry && Visible(s))
    ensures var r := SpuStep(s, false);
            r.done == s.done && Pending(r) == Pending(s) && Position(r) == Position(s) && Rank(r) < Rank(s)
  {
    if s.pc == Loop {
      SnapshotRead(s);
    }
    hide Layout, WindowAgrees, SnapshotOk, Visible, DecodeWindow;
  }

  lemma RestStays(s: State)
    requires Inv(s) && Rest(s)
    ensures Rest(SpuStep(s, false)) && SpuStep(s, false).done == s.done
  {
    if s.pc == Loop {
      SnapshotRead(s);
    }
    hide Layout, WindowAgrees, SnapshotOk;
  }

  lemma {:induction false} AloneIsFine(s: State, n: nat)
    requires Fine(s)
    ensures Fine(Alone(s, n)) && Alone(s, n).published == s.published && Alone(s, n).write == s.write
  {
    hide Fine, SpuStep;
    if n > 0 {
      AloneIsFine(s, n - 1);
      FineStep(Alone(s, n - 1));
    }
  }

  lemma StepNearer(b: State)
    requires Fine(b)
    ensures var r := SpuStep(b, false);
            if Rest(b) then Rest(r) else Rest(r) || 9 * |Pending(r)| + Rank(r) < 9 * |Pending(b)| + Rank(b)
  {
    hide SpuStep, Rest, Rank, Pending, Inv, PointersClear, Short;
    if Rest(b) {
      RestStays(b);
    } else {
      GetsOn(b);
      RankIsSmall(SpuStep(b, false));
      RankIsSmall(b);
    }
  }

  lemma {:induction false} NearerRest(s: State, n: nat)
    requires Fine(s)
    ensures var r := Alone(s, n);
            Rest(r) || 9 * |Pending(r)| + Rank(r) + n <= 9 * |Pending(s)| + Rank(s)
  {
    hide Fine, Rest, Rank, Pending, SpuStep;
    if n > 0 {
      NearerRest(s, n - 1);
      AloneIsFine(s, n - 1);
      StepNearer(Alone(s, n - 1));
    }
  }

  lemma FineIsInv(s: State)
    requires Fine(s)
    ensures Inv(s)
  {
    hide Inv;
  }

  lemma RankIsSmall(s: State)
    ensures 1 <= Rank(s) <= 8
  {
  }

  /** Where the reader is after m of the commands. */
  function Where(p: int, cmds: seq<Cmd>, m: nat): int
    requires m <= |cmds|
    decreases m
  {
    if m == 0 then p else Where(Next(p, cmds[0]), cmds[1..], m - 1)
  }

  /** write_ptr is at the start of a command that is not read yet: the queue looks empty there. */
  ghost predicate Returned(s: State) {
    exists m :: 0 <= m < |Pending(s)| && Where(Position(s), Pending(s), m) == s.write
  }

  lemma {:induction false} AloneDoesNotReturn(s: State, n: nat)
    requires Fine(s) && !Returned(s)
    ensures !Returned(Alone(s, n))
  {
    hide Fine, Returned, SpuStep;
    if n > 0 {
      AloneDoesNotReturn(s, n - 1);
      AloneIsFine(s, n - 1);
      StepDoesNotReturn(Alone(s, n - 1));
    }
  }

  lemma StepDoesNotReturn(b: State)
    requires Fine(b) && !Returned(b)
    ensures !Returned(SpuStep(b, false))
  {
    hide Rest, SpuStep, Returned, Inv, PointersClear, Short, Pending, Position, Rank;
    PublishedStays(b);
    if Rest(b) {
      RestKeepsPlace(b);
    } else {
      GetsOn(b);
    }
    ReturnedBefore(b, SpuStep(b, false));
  }

  lemma RestKeepsPlace(s: State)
    requires Inv(s) && Rest(s)
    ensures var r := SpuStep(s, false); Pending(r) == Pending(s) && Position(r) == Position(s)
  {
    RestStays(s);
    PublishedStays(s);
    if s.pc == Loop {
      SnapshotRead(s);
    }
    hide Inv, Layout, WindowAgrees, SnapshotOk;
  }

  lemma ReturnedBefore(b: State, r: State)
    requires r.write == b.write
    requires || (Pending(r) == Pending(b) && Position(r) == Position(b))
             || (Pending(b) != [] && Pending(r) == Pending(b)[1..] && Position(r) == Next(Position(b), Pending(b)[0]))
    ensures Returned(r) ==> Returned(b)
  {
    hide Pending, Position;
    if Returned(r) {
      var m :| 0 <= m < |Pending(r)| && Where(Position(r), Pending(r), m) == r.write;
      if Pending(r) != Pending(b) || Position(r) != Position(b) {
        assert Where(Position(b), Pending(b), m + 1) == b.write;
      } else {
        assert Where(Position(b), Pending(b), m) == b.write;
      }
    }
  }

  /** In a run whose commands have up to 224 words of payload and whose write_ptr never points into the
      middle of an unread command: left alone, the SPU is at rest after at most nine moves for each
      command and nine more, with read_ptr at write_ptr; and if write_ptr is not at the start of an unread
      command, everything published has then been completed. */
  lemma {:induction false} EverythingIsCompleted(s: State, run: seq<Action>, n: nat)
    requires Fresh(s) && TidyRun(s, run) && Short(After(s, run).published) && n >= 9 * |Pending(After(s, run))| + 9
    ensures var t := After(s, run);
            var r := Alone(t, n);
            Rest(r) && Position(r) == r.write && r.published == t.published && (!Returned(t) ==> r.done == t.published)
  {
    TidyIsClear(s, run);
    var t := After(s, run);
    hide After, TidyRun, Fresh;
    ThenRests(t, n);
  }

  lemma {:induction false} ThenRests(t: State, n: nat)
    requires Inv(t) && PointersClear(t) && Short(t.published) && n >= 9 * |Pending(t)| + 9
    ensures var r := Alone(t, n);
            Rest(r) && Position(r) == r.write && r.published == t.published && (!Returned(t) ==> r.done == t.published)
  {
    var r := Alone(t, n);
    NearerRest(t, n);
    RankIsSmall(t);
    RankIsSmall(r);
    AloneIsFine(t, n);
    if !Returned(t) {
      AloneDoesNotReturn(t, n);
      AtWrite(r);
    }
    hide PointersClear, Short, Layout, WindowAgrees, SnapshotOk, Alone, Returned;
  }

  lemma AtWrite(r: State)
    requires Inv(r) && Rest(r) && !Returned(r)
    ensures r.done == r.published
  {
    if Pending(r) != [] {
      assert Where(Position(r), Pending(r), 0) == r.write;
    }
    hide Layout, WindowAgrees, SnapshotOk;
  }

  lemma {:induction false} RestForGood(s: State, n: nat)
    requires Inv(s) && Rest(s)
    ensures var r := Alone(s, n); Inv(r) && Rest(r) && r.done == s.done
  {
    hide Inv, Rest, SpuStep;
    if n > 0 {
      RestForGood(s, n - 1);
      RestStays(Alone(s, n - 1));
      ApplyKeeps(Alone(s, n - 1), SpuMoves(false));
    }
  }

  /** A command that leads back to itself. */
  const BACK: Cmd := Cmd(JUMP, [128])

  /** ...and if write_ptr is there, they are not: a jump back to the unread jump itself brings write_ptr
      round to read_ptr, and the SPU takes the queue for empty. */
  lemma {:induction false} ReturnLooksEmpty() returns (s: State)
    ensures Fresh(StartAt(128)) && Reached(StartAt(128), s)
    ensures Pending(s) == [BACK] && Returned(s) && forall n: nat :: Rest(Alone(s, n)) && Alone(s, n).done == []
  {
    s := BackPublished();
    var first := StartAt(128);
    ReachedInv(first, s);
    BackIsRest(s);
    hide Inv, Reached, Returned, Rest;
    forall n: nat ensures Rest(Alone(s, n)) && Alone(s, n).done == [] {
      RestForGood(s, n);
    }
  }

  lemma BackPublished() returns (s: State)
    ensures Fresh(StartAt(128)) && Reached(StartAt(128), s)
    ensures s == Publish(ClientWrite(ClientWrite(StartAt(128), 132, 128), 128, HeadWord(BACK)), BACK)
  {
    var first := StartAt(128);
    ReachedByNothing(first);
    var a := ClientWrite(first, 132, 128);
    hide Reached;
    ReachedStep(first, first, ClientWrites(132, 128));
    s := PublishOne(first, a, BACK);
  }

  lemma BackIsRest(s: State)
    requires s == Publish(ClientWrite(ClientWrite(StartAt(128), 132, 128), 128, HeadWord(BACK)), BACK)
    ensures Pending(s) == [BACK] && Rest(s) && Returned(s) && s.done == []
  {
    assert Pending(s) == [BACK];
    assert Where(Position(s), Pending(s), 0) == s.write;
  }

  // ---- no needless refills ----

  /** The window is this queue's and shows the next command. */
  predicate Sees(s: State) {
    s.tagged && Visible(s)
  }

  lemma NeedStays(s: State, e: Action)
    requires Inv(s) && Allowed(s, e) && (s.pc == Fill ==> !Sees(s))
    ensures Apply(s, e).pc == Fill ==> !Sees(Apply(s, e))
  {
    if !e.SpuMoves? && s.pc == Fill {
      SameLook(s, e);
    }
    LookIsTheSame(s);
    hide Inv, Visible, DecodeWindow;
  }

  lemma LookIsTheSame(s: State)
    ensures Visible(s.(pc := Fill)) == Visible(s)
  {
  }

  lemma SameLook(s: State, e: Action)
    requires Allowed(s, e) && !e.SpuMoves? && s.pc == Fill
    ensures Visible(Apply(s, e)) == Visible(s) && Apply(s, e).tagged == s.tagged
  {
  }

  /** In every run the window is refilled only if it is another queue's or does not show the next command. */
  lemma {:induction false} RefillsAreNeeded(s: State, run: seq<Action>)
    requires Fresh(s) && Legal(s, run)
    ensures var r := After(s, run); r.pc == Fill ==> !Sees(r)
    decreases |run|
  {
    if run != [] {
      hide Apply, Allowed, Sees, Inv, Fresh;
      LegalFront(s, run);
      RefillsAreNeeded(s, run[..|run| - 1]);
      RunKeeps(s, run[..|run| - 1]);
      NeedStays(After(s, run[..|run| - 1]), run[|run| - 1]);
    } else {
      hide Visible;
    }
  }

  /** The window is given up only to another queue or by a jump. */
  lemma WindowIsKept(s: State, e: Action)
    requires Inv(s) && Allowed(s, e) && s.tagged && !Apply(s, e).tagged
    ensures e.OtherQueueRuns? || (Accepts(s, e) && Pending(s)[0].op == JUMP)
  {
    if e.SpuMoves? && s.pc == Retry && Visible(s) {
      WindowShowsNext(s);
    }
    hide Inv, Visible, DecodeWindow, DecodeAt;
  }

  /** The SPU leaves the queue only when its copy of write_ptr is at its read position, when a command is
      refused, or when the target of a jump has been written back. */
  lemma WhyItLeaves(s: State, e: Action)
    requires Inv(s) && Allowed(s, e) && s.pc != Idle && Apply(s, e).pc == Idle
    ensures e.SpuMoves?
    ensures (s.pc == Loop && s.wptr == s.rptr) || Refuses(s, e) || (s.pc == JumpUpdate && s.reserved)
  {
    if e.SpuMoves? && s.pc == Retry && Visible(s) {
      WindowShowsNext(s);
    }
    hide Inv, Visible, DecodeWindow, DecodeAt;
  }

  /** A successful store after a command publishes the read position, leaves write_ptr as it is, and the SPU
      goes on with the write_ptr of that moment. */
  lemma WritesBack(s: State, e: Action)
    requires Inv(s) && e.SpuMoves? && (s.pc == Update || s.pc == JumpUpdate)
    ensures var r := Apply(s, e);
            if s.reserved
            then r.read == s.rptr && r.write == s.write && (s.pc == Update ==> r.pc == Loop && r.wptr == r.write)
            else r.read == s.read && r.write == s.write && r.pc == s.pc && r.rptr == s.rptr && r.reserved
  {
    hide Layout, WindowAgrees, SnapshotOk;
  }
}
