/** One command queue shared by a client, which appends commands, and the SPU, which reads
    them through a 1024-byte window and writes its read pointer back with a conditional
    store. Every shared access is a step of its own; steps interleave in any order. */
module CommandFifo {
  import opened FifoFormat

  const FIFO_SIZE: int := 1024

  /** Where the SPU is in process_queue. */
  datatype Pc = Idle | Loop | Retry | Fill | Update | JumpUpdate

  datatype State = State(
    mem: Memory,            // the command words
    write: int, read: int,  // the queue's line: both pointers
    reserved: bool,         // the SPU's reservation on that line
    lineWrite: int,         // write_ptr in the SPU's copy of the line
    pc: Pc, wptr: int, rptr: int,
    area: seq<int>, ofs: int, len: int, // the window
    tagged: bool,           // fifo_eah/fifo_eal name this queue
    // history: what was published, what the SPU has completed, how much of it was published
    // when the SPU last looked, and what the client stored last
    published: seq<Cmd>, done: seq<Cmd>, seen: nat, stored: int)

  // ---- client steps ----

  /** The client writes a word outside the commands that are not read yet. */
  function ClientWrite(s: State, a: int, v: int): State {
    s.(mem := s.mem[a := v])
  }

  /** The client stores write_ptr past the command it wrote at the old write_ptr; a jump and the
      pointer to its target appear together. */
  function Publish(s: State, c: Cmd): State {
    s.(write := Next(s.write, c), reserved := false, published := s.published + [c], stored := Next(s.write, c))
  }

  // ---- other events ----

  /** The SPU serves another queue in between and takes the window. */
  function OtherQueue(s: State, area: seq<int>, ofs: int, len: int): State {
    s.(tagged := false, area := area, ofs := ofs, len := len)
  }

  function LoseReservation(s: State): State {
    s.(reserved := false)
  }

  // ---- SPU steps ----

  function LoadLine(s: State): State {
    s.(lineWrite := s.write, reserved := true)
  }

  function Enter(s: State): State {
    LoadLine(s).(pc := Loop, wptr := s.write, rptr := s.read, seen := |s.published|)
  }

  function LoopTest(s: State): State {
    if s.wptr == s.rptr then s.(pc := Idle)
    else if s.tagged then s.(pc := Retry)
    else s.(pc := Fill)
  }

  function AreaWord(s: State, a: int): int {
    var k := (a - s.ofs) / 4;
    if 0 <= k < |s.area| then s.area[k] else 0
  }

  /** The command word at rptr is in the window, and so is the whole command. */
  predicate Visible(s: State) {
    && s.ofs <= s.rptr && s.ofs + s.len >= s.rptr + 4
    && s.ofs + s.len >= s.rptr + 4 + 4 * (AreaWord(s, s.rptr) / WORD)
  }

  /** The command as the window shows it. */
  function DecodeWindow(s: State): Cmd {
    var head := AreaWord(s, s.rptr);
    Cmd(head % WORD, seq(if head >= 0 then head / WORD else 0, k requires 0 <= k => AreaWord(s, s.rptr + 4 + 4 * k)))
  }

  /** At retry_loop: run the command if it is visible. A command other than a jump may refuse;
      a jump drops the window. */
  function RetryStep(s: State, refuses: bool): State {
    if !Visible(s) then s.(pc := Fill)
    else
      var c := DecodeWindow(s);
      if c.op == JUMP && c.data != [] then
        s.(rptr := c.data[0], tagged := false, done := s.done + [c], pc := JumpUpdate)
      else if refuses then s.(pc := Idle)
      else s.(rptr := s.rptr + Bytes(c), done := s.done + [c], pc := Update)
  }

  /** The start of the 128-byte line of a. */
  function LineStart(a: int): (r: int)
    ensures r <= a < r + 128
    ensures r % 4 == 0
  {
    assert a - a % 128 == 4 * (32 * (a / 128));
    a - a % 128
  }

  /** n rounded up to whole lines. */
  function WholeLines(n: int): (r: int)
    ensures n <= r < n + 128
  {
    (n + 127) / 128 * 128
  }

  function FillLength(wptr: int, rptr: int, ofs: int): int {
    if wptr < rptr || wptr - ofs > FIFO_SIZE then FIFO_SIZE else wptr - ofs
  }

  /** Reload the window from the 128-byte line of rptr on, in whole lines. */
  function FillStep(s: State): State {
    var ofs := LineStart(s.rptr);
    var len := FillLength(s.wptr, s.rptr, ofs);
    s.(ofs := ofs, len := len, tagged := true, pc := Retry, area := Filled(s, ofs, WholeLines(len)))
  }

  /** The first `bytes` bytes come from memory, the others stay. */
  function Filled(s: State, ofs: int, bytes: int): seq<int> {
    seq(FIFO_SIZE / 4, k requires 0 <= k =>
      if 4 * k < bytes || k >= |s.area| then Word(s.mem, ofs + 4 * k) else s.area[k])
  }

  /** The conditional store of the whole line; when it fails, load the line and try again. */
  function UpdateStep(s: State): State {
    if !s.reserved then LoadLine(s)
    else s.(write := s.lineWrite, read := s.rptr, reserved := false,
            wptr := s.lineWrite, seen := |s.published|, pc := Loop)
  }

  function JumpUpdateStep(s: State): State {
    if !s.reserved then LoadLine(s)
    else s.(write := s.lineWrite, read := s.rptr, reserved := false, pc := Idle)
  }

  function SpuStep(s: State, refuses: bool): State {
    match s.pc
    case Idle => Enter(s)
    case Loop => LoopTest(s)
    case Retry => RetryStep(s, refuses)
    case Fill => FillStep(s)
    case Update => UpdateStep(s)
    case JumpUpdate => JumpUpdateStep(s)
  }

  // ---- the invariant ----

  ghost function Pending(s: State): seq<Cmd> {
    if |s.done| <= |s.published| then s.published[|s.done|..] else []
  }

  /** The position up to which commands are completed. */
  ghost function Position(s: State): int {
    if s.pc == Idle then s.read else s.rptr
  }

  /** The window agrees with memory as far as it will be used before the next jump. */
  ghost predicate WindowAgrees(s: State) {
    && s.ofs % 4 == 0
    && (forall a :: a % 4 == 0 && Position(s) <= a < RunEnd(Position(s), Pending(s)) && s.ofs <= a < s.ofs + s.len
          ==> AreaWord(s, a) == Word(s.mem, a))
    && (!HasJump(Pending(s)) ==> s.ofs + s.len <= s.write)
  }

  /** The write pointer the SPU works with was reached by a part of what is published. */
  ghost predicate SnapshotOk(s: State) {
    (s.pc == Loop || s.pc == Retry || s.pc == Fill) ==>
      && s.read == s.rptr && |s.done| <= s.seen <= |s.published|
      && Layout(s.mem, s.rptr, s.published[|s.done|..s.seen], s.wptr)
  }

  ghost predicate Inv(s: State) {
    && s.done <= s.published && Layout(s.mem, Position(s), Pending(s), s.write)
    && Position(s) >= 0 && Position(s) % 4 == 0 && s.write >= 0 && s.write % 4 == 0
    && s.stored == s.write
    && (s.reserved && s.pc != Idle ==> s.lineWrite == s.write)
    && SnapshotOk(s)
    && (s.tagged ==> WindowAgrees(s))
    && ((s.pc == Retry || s.pc == Fill) ==> s.wptr != s.rptr)
    && (s.pc == Retry ==> s.tagged)
  }

  /** allocateBuffer sets both pointers of a new queue to the start of its data. */
  ghost predicate Fresh(s: State) {
    && s.write == s.read == s.stored && s.write >= 0 && s.write % 4 == 0 && s.pc == Idle
    && s.published == s.done == [] && !s.tagged
  }

  // ---- the client's steps keep it ----

  lemma ClientWriteKeeps(s: State, a: int, v: int)
    requires Inv(s) && !InUse(Position(s), Pending(s), a)
    ensures Inv(ClientWrite(s, a, v))
  {
    var r := ClientWrite(s, a, v);
    LayoutWrite(s.mem, Position(s), Pending(s), s.write, a, v);
    AllValid(s.mem, Position(s), Pending(s), s.write);
    if s.pc == Loop || s.pc == Retry || s.pc == Fill {
      var part := s.published[|s.done|..s.seen];
      PartInUse(s.rptr, Pending(s), s.seen - |s.done|, a);
      assert Pending(s)[..s.seen - |s.done|] == part;
      LayoutWrite(s.mem, s.rptr, part, s.wptr, a, v);
    }
    if s.tagged {
      WindowAfterWrite(s, a, v);
    }
  }

  lemma WindowAfterWrite(s: State, a: int, v: int)
    requires WindowAgrees(s) && !InUse(Position(s), Pending(s), a)
    requires forall k :: 0 <= k < |Pending(s)| ==> Valid(Pending(s)[k])
    ensures WindowAgrees(ClientWrite(s, a, v))
  {
    var r := ClientWrite(s, a, v);
    forall b | b % 4 == 0 && Position(r) <= b < RunEnd(Position(r), Pending(r)) && r.ofs <= b < r.ofs + r.len
      ensures AreaWord(r, b) == Word(r.mem, b)
    {
      RunInUse(Position(s), Pending(s), b);
      assert AreaWord(s, b) == Word(s.mem, b);
    }
  }

  lemma {:induction false} PartInUse(p: int, cmds: seq<Cmd>, m: nat, a: int)
    requires m <= |cmds| && !InUse(p, cmds, a)
    ensures !InUse(p, cmds[..m], a)
    decreases m
  {
    if m > 0 {
      assert cmds[..m][1..] == cmds[1..][..m - 1];
      PartInUse(Next(p, cmds[0]), cmds[1..], m - 1, a);
    }
  }

  lemma PendingAfterPublish(s: State, c: Cmd)
    requires s.done <= s.published
    ensures s.done <= Publish(s, c).published && Pending(Publish(s, c)) == Pending(s) + [c]
  {
    hide Next;
  }

  lemma PublishKeeps(s: State, c: Cmd)
    requires Inv(s) && Valid(c) && Holds(s.mem, s.write, c)
    ensures Inv(Publish(s, c))
  {
    PendingAfterPublish(s, c);
    LayoutAppend(s.mem, Position(s), Pending(s), s.write, c);
    hide Layout, Holds, WindowAgrees, SnapshotOk, Pending, Valid;
    SnapshotAfterPublish(s, c);
    if s.tagged {
      WindowAfterPublish(s, c);
    }
  }

  lemma SnapshotAfterPublish(s: State, c: Cmd)
    requires SnapshotOk(s)
    ensures SnapshotOk(Publish(s, c))
  {
    var r := Publish(s, c);
    hide Layout, Holds, Next;
    if s.pc == Loop || s.pc == Retry || s.pc == Fill {
      assert r.published[|r.done|..r.seen] == s.published[|s.done|..s.seen];
    }
  }

  lemma WindowAfterPublish(s: State, c: Cmd)
    requires WindowAgrees(s) && s.done <= s.published
    requires Layout(s.mem, Position(s), Pending(s), s.write)
    requires Valid(c) && Holds(s.mem, s.write, c)
    ensures WindowAgrees(Publish(s, c))
  {
    var r := Publish(s, c);
    PendingAfterPublish(s, c);
    RunAppend(Position(s), Pending(s), c);
    if !HasJump(Pending(s)) {
      StraightRun(s.mem, Position(s), Pending(s), s.write);
      hide Layout, Holds, RunEnd, AreaWord;
      forall b | b % 4 == 0 && Position(r) <= b < RunEnd(Position(r), Pending(r)) && r.ofs <= b < r.ofs + r.len
        ensures AreaWord(r, b) == Word(r.mem, b)
      {
        assert AreaWord(s, b) == Word(s.mem, b);
      }
      if c.op == JUMP {
        assert Pending(r)[|Pending(s)|] == c;
      }
    }
  }

  // ---- the SPU's steps keep it ----

  lemma EnterKeeps(s: State)
    requires Inv(s) && s.pc == Idle
    ensures Inv(Enter(s))
  {
    assert s.published[|s.done|..] == s.published[|s.done|..|s.published|];
    hide WindowAgrees, Layout;
    WindowFrame(s, Enter(s));
  }

  lemma LoopKeeps(s: State)
    requires Inv(s) && s.pc == Loop
    ensures Inv(LoopTest(s))
  {
    hide WindowAgrees, Layout;
    WindowFrame(s, LoopTest(s));
  }

  /** The window goes on agreeing when nothing that it depends on changes. */
  lemma WindowFrame(s: State, r: State)
    requires Position(r) == Position(s) && Pending(r) == Pending(s) && r.write == s.write
    requires r.ofs == s.ofs && r.len == s.len && r.area == s.area && r.mem == s.mem
    ensures WindowAgrees(r) == WindowAgrees(s)
  {
    hide RunEnd, HasJump;
    assert forall a :: AreaWord(r, a) == AreaWord(s, a);
  }

  lemma UpdateKeeps(s: State)
    requires Inv(s) && s.pc == Update
    ensures Inv(UpdateStep(s))
  {
    assert s.published[|s.done|..] == s.published[|s.done|..|s.published|];
    hide WindowAgrees, Layout;
    WindowFrame(s, UpdateStep(s));
  }

  lemma JumpUpdateKeeps(s: State)
    requires Inv(s) && s.pc == JumpUpdate
    ensures Inv(JumpUpdateStep(s))
  {
    hide WindowAgrees, Layout;
    WindowFrame(s, JumpUpdateStep(s));
  }

  /** At retry_loop there is a published command to read. */
  lemma SomethingToRead(s: State)
    requires Inv(s) && (s.pc == Retry || s.pc == Fill)
    ensures s.seen > |s.done| && Pending(s) != [] && Pending(s)[0] == s.published[|s.done|]
  {
    assert s.published[|s.done|..s.seen] == [] ==> s.wptr == s.rptr;
  }

  /** What the window shows is the next published command, and what memory holds. */
  lemma WindowShowsNext(s: State)
    requires Inv(s) && s.pc == Retry && Visible(s)
    ensures Pending(s) != [] && DecodeWindow(s) == Pending(s)[0] == DecodeAt(s.mem, s.rptr)
  {
    SomethingToRead(s);
    NextIsHeld(s);
    var c := Pending(s)[0];
    RunCovers(s.rptr, Pending(s));
    DecodeHeld(s.mem, s.rptr, c);
    WindowShows(s, c);
  }

  lemma NextIsHeld(s: State)
    requires Inv(s) && Pending(s) != []
    ensures Valid(Pending(s)[0]) && Holds(s.mem, Position(s), Pending(s)[0]) && Position(s) % 4 == 0
  {
    hide SnapshotOk, WindowAgrees, Holds, Valid;
  }

  /** A held command inside the window and before the end of the run is shown as it is. */
  lemma WindowShows(s: State, c: Cmd)
    requires WindowAgrees(s) && s.pc != Idle && s.rptr % 4 == 0 && Visible(s)
    requires Valid(c) && Holds(s.mem, s.rptr, c) && s.rptr + Bytes(c) <= RunEnd(s.rptr, Pending(s))
    ensures DecodeWindow(s) == c
  {
    hide AreaWord, RunEnd, HasJump, Pending;
    assert AreaWord(s, s.rptr) == Word(s.mem, s.rptr) == HeadWord(c);
    HeadRoundTrip(c);
    forall k | 0 <= k < |c.data| ensures AreaWord(s, s.rptr + 4 + 4 * k) == c.data[k] {
      assert (s.rptr + 4 + 4 * k) % 4 == 0;
    }
  }

  lemma {:induction false} RunCovers(p: int, cmds: seq<Cmd>)
    requires cmds != []
    ensures RunEnd(p, cmds) >= p + Bytes(cmds[0])
    decreases |cmds|
  {
    if cmds[0].op != JUMP && |cmds| > 1 {
      RunCovers(p + Bytes(cmds[0]), cmds[1..]);
    }
  }

  /** The window is not enough, or the command refuses: nothing is completed. */
  lemma RetryWaits(s: State, r: State)
    requires Inv(s) && s.pc == Retry && (r == s.(pc := Fill) || r == s.(pc := Idle))
    ensures Inv(r)
  {
    hide WindowAgrees, Layout;
    WindowFrame(s, r);
  }

  lemma RetryJumps(s: State)
    requires Inv(s) && s.pc == Retry && Visible(s) && DecodeWindow(s).op == JUMP
    ensures Inv(RetryStep(s, false)) && RetryStep(s, true) == RetryStep(s, false)
    ensures RetryStep(s, false).pc == JumpUpdate
  {
    hide WindowAgrees, DecodeWindow, Visible;
    WindowShowsNext(s);
    var r := RetryStep(s, false);
    assert s.published == s.done + Pending(s);
    assert Pending(r) == Pending(s)[1..];
    LayoutStart(s.mem, r.rptr, Pending(r), r.write);
  }

  lemma LayoutStart(mem: Memory, p: int, cmds: seq<Cmd>, w: int)
    requires Layout(mem, p, cmds, w) && w >= 0 && w % 4 == 0
    ensures p >= 0 && p % 4 == 0
  {
  }

  lemma RetryRuns(s: State)
    requires Inv(s) && s.pc == Retry && Visible(s) && DecodeWindow(s).op != JUMP
    ensures Inv(RetryStep(s, false))
  {
    hide WindowAgrees, DecodeWindow, Visible;
    WindowShowsNext(s);
    var r := RetryStep(s, false);
    assert s.published == s.done + Pending(s);
    assert Pending(r) == Pending(s)[1..];
    LayoutStart(s.mem, r.rptr, Pending(r), r.write);
    WindowAfterCommand(s, r);
  }

  lemma RetryKeeps(s: State, refuses: bool)
    requires Inv(s) && s.pc == Retry
    ensures Inv(RetryStep(s, refuses))
  {
    hide Inv, Visible, DecodeWindow;
    if !Visible(s) {
      RetryWaits(s, RetryStep(s, refuses));
    } else if DecodeWindow(s).op == JUMP {
      RetryJumps(s);
    } else if refuses {
      RetryWaits(s, RetryStep(s, refuses));
    } else {
      RetryRuns(s);
    }
  }

  lemma WindowAfterCommand(s: State, r: State)
    requires WindowAgrees(s) && Pending(s) != [] && Pending(s)[0].op != JUMP
    requires Position(r) == Position(s) + Bytes(Pending(s)[0]) && Pending(r) == Pending(s)[1..]
    requires r.ofs == s.ofs && r.len == s.len && r.area == s.area && r.mem == s.mem && r.write == s.write
    ensures WindowAgrees(r)
  {
    forall a | a % 4 == 0 && Position(r) <= a < RunEnd(Position(r), Pending(r)) && r.ofs <= a < r.ofs + r.len
      ensures AreaWord(r, a) == Word(r.mem, a)
    {
      assert AreaWord(s, a) == Word(s.mem, a);
    }
    if HasJump(Pending(s)) {
      var k :| 0 <= k < |Pending(s)| && Pending(s)[k].op == JUMP;
      assert Pending(r)[k - 1].op == JUMP;
    }
  }

  lemma FillKeeps(s: State)
    requires Inv(s) && s.pc == Fill
    ensures Inv(FillStep(s))
  {
    hide WindowAgrees, Layout, FillStep, SnapshotOk;
    FillFrame(s);
    FillAgrees(s);
    SnapshotAfterFill(s);
  }

  /** A refill changes nothing but the window. */
  lemma FillFrame(s: State)
    ensures FillStep(s) == s.(ofs := FillStep(s).ofs, len := FillStep(s).len, area := FillStep(s).area, tagged := true, pc := Retry)
    ensures FillStep(s).ofs % 4 == 0
  {
    hide Filled, FillLength, LineStart, WholeLines;
  }

  lemma SnapshotAfterFill(s: State)
    requires SnapshotOk(s) && s.pc == Fill
    ensures SnapshotOk(FillStep(s))
  {
    hide Layout, FillStep;
    FillFrame(s);
  }

  lemma FillAgrees(s: State)
    requires Inv(s) && s.pc == Fill
    ensures WindowAgrees(FillStep(s))
  {
    var r := FillStep(s);
    hide Layout, FillStep, RunEnd, HasJump, AreaWord, SnapshotOk;
    FillFrame(s);
    forall a | a % 4 == 0 && Position(r) <= a < RunEnd(Position(r), Pending(r)) && r.ofs <= a < r.ofs + r.len
      ensures AreaWord(r, a) == Word(r.mem, a)
    {
      FilledWord(s, a);
    }
    if !HasJump(Pending(s)) {
      FillStaysPublished(s);
    }
  }

  lemma FilledWord(s: State, a: int)
    requires s.rptr >= 0 && a % 4 == 0 && FillStep(s).ofs <= a < FillStep(s).ofs + FillStep(s).len
    requires s.rptr % 4 == 0
    ensures AreaWord(FillStep(s), a) == Word(s.mem, a)
  {
    var r := FillStep(s);
    hide LineStart, WholeLines, Word;
    var k := (a - r.ofs) / 4;
    assert r.ofs + 4 * k == a;
    assert 4 * k < r.len <= WholeLines(r.len) && k < FIFO_SIZE / 4;
    assert r.area[k] == Word(s.mem, r.ofs + 4 * k);
  }

  /** Without a jump ahead, the filled window does not reach past the published commands. */
  lemma FillStaysPublished(s: State)
    requires Inv(s) && s.pc == Fill && !HasJump(Pending(s))
    ensures FillStep(s).ofs + FillStep(s).len <= s.write
  {
    var m := s.seen - |s.done|;
    var part := s.published[|s.done|..s.seen];
    assert Pending(s)[..m] == part;
    LayoutSplit(s.mem, s.rptr, Pending(s), s.write, m, s.wptr);
    forall k | 0 <= k < |part| ensures part[k].op != JUMP {
      assert part[k] == Pending(s)[k];
    }
    forall k | 0 <= k < |Pending(s)[m..]| ensures Pending(s)[m..][k].op != JUMP {
      assert Pending(s)[m..][k] == Pending(s)[m + k];
    }
    StraightRun(s.mem, s.rptr, part, s.wptr);
    StraightRun(s.mem, s.wptr, Pending(s)[m..], s.write);
  }
}
