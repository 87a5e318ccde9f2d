/** The command stream: words in a shared buffer, read by following jumps. */
module FifoFormat {

  const WORD: int := 0x1000000
  const JUMP: int := 1

  /** A command: its number and its payload words. */
  datatype Cmd = Cmd(op: int, data: seq<int>)

  type Memory = map<int, int>

  /** The word at a byte address; words that were never written read as zero. */
  function Word(mem: Memory, a: int): int {
    if a in mem then mem[a] else 0
  }

  /** What BEGIN_RING can express: 24 bits of number, 8 bits of length. A jump carries its
      4-aligned target. */
  predicate Valid(c: Cmd) {
    && 0 <= c.op < WORD && |c.data| < 256
    && (c.op == JUMP ==> |c.data| == 1 && c.data[0] >= 0 && c.data[0] % 4 == 0)
  }

  function Bytes(c: Cmd): (r: int)
    ensures r >= 4 && r % 4 == 0
  {
    4 + 4 * |c.data|
  }

  function HeadWord(c: Cmd): int {
    c.op + |c.data| * WORD
  }

  /** The command is in memory from p on. */
  predicate Holds(mem: Memory, p: int, c: Cmd) {
    && Word(mem, p) == HeadWord(c)
    && forall k :: 0 <= k < |c.data| ==> Word(mem, p + 4 + 4 * k) == c.data[k]
  }

  /** What an interpreter without a cache reads at p. */
  function DecodeAt(mem: Memory, p: int): Cmd {
    var head := Word(mem, p);
    Cmd(head % WORD, seq(if head >= 0 then head / WORD else 0, k requires 0 <= k => Word(mem, p + 4 + 4 * k)))
  }

  /** Reading back what was written. */
  lemma DecodeHeld(mem: Memory, p: int, c: Cmd)
    requires Valid(c) && Holds(mem, p, c)
    ensures DecodeAt(mem, p) == c
  {
    HeadRoundTrip(c);
  }

  lemma HeadRoundTrip(c: Cmd)
    requires Valid(c)
    ensures HeadWord(c) >= 0 && HeadWord(c) % WORD == c.op && HeadWord(c) / WORD == |c.data|
  {
  }

  /** Where the interpreter goes after a command at p. */
  function Next(p: int, c: Cmd): int {
    if c.op == JUMP && c.data != [] then c.data[0] else p + Bytes(c)
  }

  /** Reading from p, following jumps, gives exactly `cmds` and ends at w. */
  ghost predicate Layout(mem: Memory, p: int, cmds: seq<Cmd>, w: int)
    decreases |cmds|
  {
    if cmds == [] then p == w
    else Valid(cmds[0]) && p >= 0 && p % 4 == 0 && Holds(mem, p, cmds[0])
         && Layout(mem, Next(p, cmds[0]), cmds[1..], w)
  }

  /** The words of the unread commands from p on. */
  ghost predicate InUse(p: int, cmds: seq<Cmd>, a: int)
    decreases |cmds|
  {
    cmds != [] && (p <= a < p + Bytes(cmds[0]) || InUse(Next(p, cmds[0]), cmds[1..], a))
  }

  ghost predicate HasJump(cmds: seq<Cmd>) {
    exists k :: 0 <= k < |cmds| && cmds[k].op == JUMP
  }

  /** The end of the stretch of memory that is read before the first jump has been taken. */
  ghost function RunEnd(p: int, cmds: seq<Cmd>): int
    decreases |cmds|
  {
    if cmds == [] then p
    else if cmds[0].op == JUMP then p + Bytes(cmds[0])
    else RunEnd(p + Bytes(cmds[0]), cmds[1..])
  }

  // ---- facts about layouts ----

  lemma {:induction false} LayoutAppend(mem: Memory, p: int, cmds: seq<Cmd>, w: int, c: Cmd)
    requires Layout(mem, p, cmds, w) && Valid(c) && w >= 0 && w % 4 == 0 && Holds(mem, w, c)
    ensures Layout(mem, p, cmds + [c], Next(w, c))
    decreases |cmds|
  {
    if cmds == [] {
      assert (cmds + [c])[1..] == [];
    } else {
      LayoutAppend(mem, Next(p, cmds[0]), cmds[1..], w, c);
      assert (cmds + [c])[1..] == cmds[1..] + [c];
    }
  }

  /** Writing outside the unread commands does not disturb them. */
  lemma {:induction false} LayoutWrite(mem: Memory, p: int, cmds: seq<Cmd>, w: int, a: int, v: int)
    requires Layout(mem, p, cmds, w) && !InUse(p, cmds, a)
    ensures Layout(mem[a := v], p, cmds, w)
    decreases |cmds|
  {
    if cmds != [] {
      LayoutWrite(mem, Next(p, cmds[0]), cmds[1..], w, a, v);
    }
  }

  /** A layout that passes w after its first m commands continues from there. */
  lemma {:induction false} LayoutSplit(mem: Memory, p: int, cmds: seq<Cmd>, w: int, m: nat, v: int)
    requires m <= |cmds| && Layout(mem, p, cmds, w) && Layout(mem, p, cmds[..m], v)
    ensures Layout(mem, v, cmds[m..], w)
    decreases m
  {
    if m > 0 {
      assert cmds[..m][1..] == cmds[1..][..m - 1];
      LayoutSplit(mem, Next(p, cmds[0]), cmds[1..], w, m - 1, v);
    }
  }

  lemma {:induction false} LayoutTake(mem: Memory, p: int, cmds: seq<Cmd>, w: int, m: nat)
    requires m <= |cmds| && Layout(mem, p, cmds, w)
    ensures exists v :: Layout(mem, p, cmds[..m], v)
    decreases m
  {
    if m == 0 {
      assert Layout(mem, p, cmds[..0], p);
    } else {
      assert cmds[..m][1..] == cmds[1..][..m - 1];
      LayoutTake(mem, Next(p, cmds[0]), cmds[1..], w, m - 1);
      var v :| Layout(mem, Next(p, cmds[0]), cmds[1..][..m - 1], v);
      assert Layout(mem, p, cmds[..m], v);
    }
  }

  /** Without jumps the end of the run is the end of the layout, and addresses only grow. */
  lemma {:induction false} StraightRun(mem: Memory, p: int, cmds: seq<Cmd>, w: int)
    requires Layout(mem, p, cmds, w) && !HasJump(cmds)
    ensures RunEnd(p, cmds) == w && p <= w
    decreases |cmds|
  {
    if cmds != [] {
      assert cmds[0].op != JUMP;
      forall k | 0 <= k < |cmds[1..]| ensures cmds[1..][k].op != JUMP {
        assert cmds[1..][k] == cmds[k + 1];
      }
      StraightRun(mem, Next(p, cmds[0]), cmds[1..], w);
    }
  }

  /** The words up to the end of the run are in use. */
  lemma {:induction false} RunInUse(p: int, cmds: seq<Cmd>, a: int)
    requires p <= a < RunEnd(p, cmds) && forall k :: 0 <= k < |cmds| ==> Valid(cmds[k])
    ensures InUse(p, cmds, a)
    decreases |cmds|
  {
    if cmds != [] && cmds[0].op != JUMP && a >= p + Bytes(cmds[0]) {
      forall k | 0 <= k < |cmds[1..]| ensures Valid(cmds[1..][k]) {
        assert cmds[1..][k] == cmds[k + 1];
      }
      RunInUse(p + Bytes(cmds[0]), cmds[1..], a);
    }
  }

  /** A further command extends the run only if there was no jump yet. */
  lemma {:induction false} RunAppend(p: int, cmds: seq<Cmd>, c: Cmd)
    ensures HasJump(cmds) ==> RunEnd(p, cmds + [c]) == RunEnd(p, cmds)
    ensures HasJump(cmds) ==> HasJump(cmds + [c])
    decreases |cmds|
  {
    if HasJump(cmds) {
      var k :| 0 <= k < |cmds| && cmds[k].op == JUMP;
      assert (cmds + [c])[k].op == JUMP;
      if cmds[0].op != JUMP {
        assert cmds[1..][k - 1] == cmds[k];
        assert (cmds + [c])[1..] == cmds[1..] + [c];
        RunAppend(p + Bytes(cmds[0]), cmds[1..], c);
      }
    }
  }

  lemma {:induction false} AllValid(mem: Memory, p: int, cmds: seq<Cmd>, w: int)
    requires Layout(mem, p, cmds, w)
    ensures forall k :: 0 <= k < |cmds| ==> Valid(cmds[k])
    decreases |cmds|
  {
    if cmds != [] {
      AllValid(mem, Next(p, cmds[0]), cmds[1..], w);
      forall k | 0 <= k < |cmds| ensures Valid(cmds[k]) {
        if k > 0 {
          assert cmds[k] == cmds[1..][k - 1];
        }
      }
    }
  }
}
