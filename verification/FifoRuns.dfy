/** Runs of the command queue protocol: what the SPU completes, the client's pointer and the read
    pointer. */
module FifoRuns {
  import opened FifoFormat
  import opened CommandFifo

  datatype Action =
    | ClientWrites(a: int, v: int)
    | ClientPublishes(c: Cmd)
    | OtherQueueRuns(area: seq<int>, ofs: int, len: int)
    | ReservationLost
    | SpuMoves(refuses: bool)

  /** The client leaves unread commands alone and publishes only what it has written. */
  ghost predicate Allowed(s: State, e: Action) {
    match e
    case ClientWrites(a, v) => !InUse(Position(s), Pending(s), a)
    case ClientPublishes(c) => Valid(c) && Holds(s.mem, s.write, c)
    case OtherQueueRuns(area, ofs, len) => s.pc == Idle
    case ReservationLost => true
    case SpuMoves(refuses) => true
  }

  function Apply(s: State, e: Action): State {
    match e
    case ClientWrites(a, v) => ClientWrite(s, a, v)
    case ClientPublishes(c) => Publish(s, c)
    case OtherQueueRuns(area, ofs, len) => OtherQueue(s, area, ofs, len)
    case ReservationLost => LoseReservation(s)
    case SpuMoves(refuses) => SpuStep(s, refuses)
  }

  function After(s: State, run: seq<Action>): State
    decreases |run|
  {
    if run == [] then s else Apply(After(s, run[..|run| - 1]), run[|run| - 1])
  }

  ghost predicate Legal(s: State, run: seq<Action>) {
    forall k :: 0 <= k < |run| ==> Allowed(After(s, run[..k]), run[k])
  }

  lemma ApplyKeeps(s: State, e: Action)
    requires Inv(s) && Allowed(s, e)
    ensures Inv(Apply(s, e))
  {
    hide Inv, InUse, Holds;
    match e
    case ClientWrites(a, v) => ClientWriteKeeps(s, a, v);
    case ClientPublishes(c) => PublishKeeps(s, c);
    case OtherQueueRuns(area, ofs, len) => OtherKeeps(s, area, ofs, len);
    case ReservationLost => LoseKeeps(s);
    case SpuMoves(refuses) =>
      match s.pc
      case Idle => EnterKeeps(s);
      case Loop => LoopKeeps(s);
      case Retry => RetryKeeps(s, refuses);
      case Fill => FillKeeps(s);
      case Update => UpdateKeeps(s);
      case JumpUpdate => JumpUpdateKeeps(s);
  }

  lemma OtherKeeps(s: State, area: seq<int>, ofs: int, len: int)
    requires Inv(s) && s.pc == Idle
    ensures Inv(OtherQueue(s, area, ofs, len))
  {
  }

  lemma LoseKeeps(s: State)
    requires Inv(s)
    ensures Inv(LoseReservation(s))
  {
    hide WindowAgrees, Layout;
    WindowFrame(s, LoseReservation(s));
  }

  lemma LegalFront(s: State, run: seq<Action>)
    requires Legal(s, run) && run != []
    ensures Legal(s, run[..|run| - 1]) && Allowed(After(s, run[..|run| - 1]), run[|run| - 1])
  {
    hide After, Allowed;
    var front := run[..|run| - 1];
    forall k | 0 <= k < |front| ensures Allowed(After(s, front[..k]), front[k]) {
      assert front[..k] == run[..k] && Allowed(After(s, run[..k]), run[k]);
    }
  }

  lemma {:induction false} RunKeeps(s: State, run: seq<Action>)
    requires Fresh(s) && Legal(s, run)
    ensures Inv(After(s, run))
    decreases |run|
  {
    if run != [] {
      var front := run[..|run| - 1];
      LegalFront(s, run);
      hide Inv, Fresh, Apply, Legal;
      RunKeeps(s, front);
      ApplyKeeps(After(s, front), run[|run| - 1]);
    }
  }

  /** n commands as an interpreter without a cache reads them from memory. */
  function Uncached(mem: Memory, p: int, n: nat): seq<Cmd>
    decreases n
  {
    if n == 0 then [] else
    var c := DecodeAt(mem, p);
    [c] + Uncached(mem, Next(p, c), n - 1)
  }

  lemma {:induction false} LayoutIsUncached(mem: Memory, p: int, cmds: seq<Cmd>, w: int)
    requires Layout(mem, p, cmds, w)
    ensures Uncached(mem, p, |cmds|) == cmds
    decreases |cmds|
  {
    if cmds != [] {
      DecodeHeld(mem, p, cmds[0]);
      LayoutIsUncached(mem, Next(p, cmds[0]), cmds[1..], w);
    }
  }

  /** In every interleaving, what the SPU has completed followed by what an uncached interpreter
      would now read from memory is exactly what the client published: the completed commands
      are a prefix of the published ones, in order, each once. */
  lemma {:induction false} CompletedThenUnread(s: State, run: seq<Action>)
    requires Fresh(s) && Legal(s, run)
    ensures var r := After(s, run);
            && |r.done| <= |r.published|
            && r.published == r.done + Uncached(r.mem, Position(r), |r.published| - |r.done|)
  {
    RunKeeps(s, run);
    var r := After(s, run);
    LayoutIsUncached(r.mem, Position(r), Pending(r), r.write);
    assert r.published == r.done + Pending(r);
  }

  /** What the SPU runs out of its window is what memory holds at its position. */
  lemma {:induction false} WindowIsNeverStale(s: State, run: seq<Action>)
    requires Fresh(s) && Legal(s, run) && After(s, run).pc == Retry && Visible(After(s, run))
    ensures var r := After(s, run);
            |r.done| < |r.published| && DecodeWindow(r) == DecodeAt(r.mem, r.rptr) == r.published[|r.done|]
  {
    RunKeeps(s, run);
    WindowShowsNext(After(s, run));
  }

  /** The conditional store of the line never takes back a write_ptr the client stored. */
  lemma {:induction false} ClientPointerIsKept(s: State, run: seq<Action>)
    requires Fresh(s) && Legal(s, run)
    ensures After(s, run).write == After(s, run).stored
  {
    RunKeeps(s, run);
  }

  /** While a completed command has not been written back, the stored read pointer is still where
      that command started. */
  ghost predicate ReadIsBehind(s: State) {
    s.pc == Update || s.pc == JumpUpdate ==>
      s.read >= 0 && s.read % 4 == 0 && s.done != [] && s.rptr == Next(s.read, s.done[|s.done| - 1])
  }

  lemma {:induction false} ReadStaysBehind(s: State, run: seq<Action>)
    requires Fresh(s) && Legal(s, run)
    ensures ReadIsBehind(After(s, run))
    decreases |run|
  {
    if run != [] {
      var front := run[..|run| - 1];
      LegalFront(s, run);
      ReadStaysBehind(s, front);
      RunKeeps(s, front);
      hide Inv, Fresh, Legal;
      ReadStep(After(s, front), run[|run| - 1]);
    }
  }

  lemma ReadStep(s: State, e: Action)
    requires Inv(s) && ReadIsBehind(s) && Allowed(s, e)
    ensures ReadIsBehind(Apply(s, e))
  {
    if e.SpuMoves? && s.pc == Retry {
      RetryBehind(s, e.refuses);
      hide ReadIsBehind;
    }
    hide Inv, RetryStep, Allowed;
  }

  lemma RetryBehind(s: State, refuses: bool)
    requires Inv(s) && s.pc == Retry
    ensures ReadIsBehind(RetryStep(s, refuses))
  {
    hide Layout, WindowAgrees, Visible, DecodeWindow;
    if Visible(s) {
      WindowShowsNext(s);
      NextIsValid(s);
      hide Inv, Pending;
    }
  }

  lemma NextIsValid(s: State)
    requires Inv(s) && Pending(s) != []
    ensures Valid(Pending(s)[0]) && Holds(s.mem, Position(s), Pending(s)[0])
  {
  }

  /** read_ptr is always the start of a command or where the next will start: of the first
      unfinished one, or, between completing a command and storing the pointer, of the one just
      completed. It meets write_ptr when everything is done and written back. */
  lemma {:induction false} ReadPointerIsOnABoundary(s: State, run: seq<Action>)
    requires Fresh(s) && Legal(s, run)
    ensures var r := After(s, run);
            && r.read % 4 == 0
            && (if r.pc == Update || r.pc == JumpUpdate then r.done != [] && Position(r) == Next(r.read, r.done[|r.done| - 1])
                else Position(r) == r.read)
            && (|r.done| < |r.published| ==> Holds(r.mem, Position(r), r.published[|r.done|]))
            && (r.done == r.published ==> Position(r) == r.write)
  {
    RunKeeps(s, run);
    ReadStaysBehind(s, run);
    var r := After(s, run);
    assert |r.done| < |r.published| ==> Pending(r)[0] == r.published[|r.done|];
  }

  // ---- dropping the window at a jump is needed ----

  /** At retry_loop with a jump, but keeping the window. */
  function JumpKeepingWindow(s: State): State {
    RetryStep(s, false).(tagged := s.tagged)
  }

  /** A fresh queue whose pointers start at 160, over memory that reads as zero. */
  function Start160(): State {
    State(map[], 160, 160, false, 0, Idle, 0, 0, [], 0, 0, false, [], [], 0, 160)
  }

  /** The client publishes a jump back to 128; the SPU fills its window; the client writes and
      publishes command 5 at 128. */
  function StaleRun(): seq<Action> {
    [ClientWrites(160, JUMP + WORD), ClientWrites(164, 128), ClientPublishes(Cmd(JUMP, [128])),
     SpuMoves(false), SpuMoves(false), SpuMoves(false),
     ClientWrites(128, 5), ClientPublishes(Cmd(5, []))]
  }

  /** If the window survived the jump, the SPU would now run a stale word as a command. */
  lemma {:induction false} KeepingTheWindowIsWrong()
    ensures Fresh(Start160()) && Legal(Start160(), StaleRun())
    ensures var s := After(Start160(), StaleRun());
            && s.pc == Retry && Visible(s) && DecodeWindow(s).op == JUMP
            && var r := SpuStep(SpuStep(SpuStep(SpuStep(JumpKeepingWindow(s), false), false), false), false);
               && r.pc == Retry && Visible(r)
               && DecodeWindow(r) != DecodeAt(r.mem, r.rptr)
  {
    var s := StaleState();
    StaleRunReaches();
    var j := JumpKeepingWindow(s);
    assert AreaWord(s, 160) == JUMP + WORD && AreaWord(s, 164) == 128;
    assert DecodeWindow(s).data == [128];
    var r := SpuStep(SpuStep(SpuStep(SpuStep(j, false), false), false), false);
    assert r.rptr == 128 && r.ofs == 128 && r.len == FIFO_SIZE && r.tagged;
    assert AreaWord(r, 128) == 0 && Word(r.mem, 128) == 5;
  }

  function StaleState(): State {
    var mem := map[160 := JUMP + WORD, 164 := 128];
    State(mem[128 := 5], 132, 160, false, 128, Retry, 128, 160,
          seq(FIFO_SIZE / 4, k requires 0 <= k => Word(mem, 128 + 4 * k)), 128, FIFO_SIZE, true,
          [Cmd(JUMP, [128]), Cmd(5, [])], [], 1, 132)
  }

  lemma {:induction false} RunExtends(s: State, run: seq<Action>, e: Action)
    requires Legal(s, run) && Allowed(After(s, run), e)
    ensures Legal(s, run + [e]) && After(s, run + [e]) == Apply(After(s, run), e)
  {
    hide Allowed, Apply;
    var longer := run + [e];
    assert longer[..|run|] == run;
    forall k | 0 <= k < |longer| ensures Allowed(After(s, longer[..k]), longer[k]) {
      if k < |run| {
        assert longer[..k] == run[..k];
      }
    }
  }

  lemma {:induction false} StaleRunReaches()
    ensures Legal(Start160(), StaleRun()) && After(Start160(), StaleRun()) == StaleState()
  {
    hide Legal, After, Allowed, Apply, SpuStep;
    var s0 := Start160();
    var run := StaleRun();
    StaleRunStarts();
    var r3 := [run[0], run[1], run[2]];
    SpuHasFilled();
    RunExtends(s0, r3, run[3]);
    RunExtends(s0, r3 + [run[3]], run[4]);
    RunExtends(s0, r3 + [run[3]] + [run[4]], run[5]);
    var r6 := r3 + [run[3]] + [run[4]] + [run[5]];
    RunExtends(s0, r6, run[6]);
    RunExtends(s0, r6 + [run[6]], run[7]);
    assert StaleRun() == r6 + [run[6]] + [run[7]];
  }

  lemma {:induction false} StaleRunStarts()
    ensures var r3 := [StaleRun()[0], StaleRun()[1], StaleRun()[2]];
            Legal(Start160(), r3) && After(Start160(), r3) == JumpedState()
  {
    hide Legal, After;
    var s0 := Start160();
    var run := StaleRun();
    NothingRun(s0);
    ClientHasJumped();
    RunExtends(s0, [], run[0]);
    RunExtends(s0, [] + [run[0]], run[1]);
    RunExtends(s0, [] + [run[0]] + [run[1]], run[2]);
    assert [] + [run[0]] + [run[1]] + [run[2]] == [run[0], run[1], run[2]];
  }

  lemma NothingRun(s: State)
    ensures Legal(s, []) && After(s, []) == s
  {
  }

  /** The state after the first three actions. */
  function JumpedState(): State {
    Start160().(mem := map[160 := JUMP + WORD, 164 := 128], write := 128,
                published := [Cmd(JUMP, [128])], stored := 128)
  }

  lemma {:induction false} ClientHasJumped()
    ensures var s1 := ClientWrite(Start160(), 160, JUMP + WORD);
            var s2 := ClientWrite(s1, 164, 128);
            && Allowed(Start160(), StaleRun()[0]) && Allowed(s1, StaleRun()[1]) && Allowed(s2, StaleRun()[2])
            && Publish(s2, Cmd(JUMP, [128])) == JumpedState()
  {
  }

  lemma {:induction false} SpuHasFilled()
    ensures var s := SpuStep(SpuStep(SpuStep(JumpedState(), false), false), false);
            var t := ClientWrite(s, 128, 5);
            && (forall x: State :: Allowed(x, SpuMoves(false)) && Apply(x, SpuMoves(false)) == SpuStep(x, false))
            && Allowed(s, StaleRun()[6]) && Apply(s, StaleRun()[6]) == t
            && Allowed(t, StaleRun()[7]) && Apply(t, StaleRun()[7]) == StaleState()
  {
    var s := SpuStep(SpuStep(SpuStep(JumpedState(), false), false), false);
    assert s.rptr == 160 && s.ofs == 128 && s.len == FIFO_SIZE;
    assert Pending(s) == [Cmd(JUMP, [128])];
  }
}
