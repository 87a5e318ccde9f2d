/** The active block as a write-back buffer of one tile: a tile is fetched when another one was
    there before, and stored when the next one is fetched or at a flush. */
module ActiveTile {
  import opened TileMemory

  // ---- building the list of a tile ----

  function Low32(x: int): int {
    x % SPAN
  }

  /** Word-by-word addition in a vector register. */
  function Add(p: Pair, q: Pair): Pair {
    Pair(Low32(p.size0 + q.size0), Low32(p.eal0 + q.eal0), Low32(p.size1 + q.size1), Low32(p.eal1 + q.eal1))
  }

  /** Rows k and k + 1 of the tile, and the step from two rows to the two that are k below. */
  function Rows(eal: int, stride: int, k: nat): Pair {
    Pair(128, Low32(eal + k * stride), 128, Low32(eal + (k + 1) * stride))
  }

  function Step(stride: int, k: nat): Pair {
    Pair(0, Low32(k * stride), 0, Low32(k * stride))
  }

  lemma LowPlus(x: int, y: int)
    ensures Low32(Low32(x) + Low32(y)) == Low32(x + y)
  {
  }

  lemma RowsStep(eal: int, stride: int, j: nat, k: nat)
    ensures Add(Rows(eal, stride, j), Step(stride, k)) == Rows(eal, stride, j + k)
    ensures Add(Step(stride, k), Rows(eal, stride, j)) == Rows(eal, stride, j + k)
    ensures Add(Step(stride, j), Step(stride, k)) == Step(stride, j + k)
  {
    assert j * stride + k * stride == (j + k) * stride;
    assert (j + 1) * stride + k * stride == (j + k + 1) * stride;
    LowPlus(eal + j * stride, k * stride);
    LowPlus(eal + (j + 1) * stride, k * stride);
    LowPlus(j * stride, k * stride);
    assert Low32(128) == 128 && Low32(0) == 0;
    hide Low32;
  }

  /** build_blit_list: the sixteen pairs of rows, made from the first by adding steps of 2, 4, 6, 8
      and 16 rows. The pairs are stored four at a time here, not all at the end. */
  method BuildBlitList(list: array<Pair>, eal: int, stride: int)
    requires list.Length == 16 && 0 <= eal < SPAN && 0 <= stride < SPAN
    modifies list
    ensures forall j :: 0 <= j < 16 ==> list[j] == Rows(eal, stride, 2 * j)
  {
    hide Add, Rows, Step, Low32;
    var block0 := Pair(128, eal, 128, Low32(eal + stride));
    var step2 := Pair(0, Low32(2 * stride), 0, Low32(2 * stride));
    var step4 := Add(step2, step2);
    var step6 := Add(step4, step2);
    var step8 := Pair(0, Low32(8 * stride), 0, Low32(8 * stride));
    var step16 := Add(step8, step8);
    FirstRows(eal, stride);
    StepsAre(stride);
    FourBlocks(list, 0, block0, step2, step4, step6, eal, stride);
    var block8 := Add(block0, step8);
    LowerRows(eal, stride, 0);
    FourBlocks(list, 4, block8, step2, step4, step6, eal, stride);
    LowerRows(eal, stride, 8);
    FourBelow(list, 8, Add(block8, step8), step16, eal, stride);
    RowsStep(eal, stride, 8, 16);
    FourBelow(list, 12, Add(step16, block8), step16, eal, stride);
  }

  /** Eight rows: the given pair and the three pairs below it. */
  method FourBlocks(list: array<Pair>, i: nat, block: Pair, step2: Pair, step4: Pair, step6: Pair, eal: int, stride: int)
    requires list.Length == 16 && i + 4 <= 16 && block == Rows(eal, stride, 2 * i)
    requires step2 == Step(stride, 2) && step4 == Step(stride, 4) && step6 == Step(stride, 6)
    modifies list
    ensures forall j :: 0 <= j < 16 ==> list[j] == if i <= j < i + 4 then Rows(eal, stride, 2 * j) else old(list[j])
  {
    hide Add, Rows, Step;
    LowerRows(eal, stride, 2 * i);
    list[i] := block;
    list[i + 1] := Add(block, step2);
    list[i + 2] := Add(block, step4);
    list[i + 3] := Add(block, step6);
    assert 2 * (i + 1) == 2 * i + 2 && 2 * (i + 2) == 2 * i + 4 && 2 * (i + 3) == 2 * i + 6;
  }

  /** Eight rows in the lower half: the given pair, and pairs sixteen rows below those above. */
  method FourBelow(list: array<Pair>, i: nat, block: Pair, step16: Pair, eal: int, stride: int)
    requires list.Length == 16 && 8 <= i && i + 4 <= 16 && step16 == Step(stride, 16) && block == Rows(eal, stride, 2 * i)
    requires forall j :: i - 8 <= j < i - 4 ==> list[j] == Rows(eal, stride, 2 * j)
    modifies list
    ensures forall j :: 0 <= j < 16 ==> list[j] == if i <= j < i + 4 then Rows(eal, stride, 2 * j) else old(list[j])
  {
    hide Add, Rows, Step;
    RowsStep(eal, stride, 2 * (i - 7), 16);
    RowsStep(eal, stride, 2 * (i - 6), 16);
    RowsStep(eal, stride, 2 * (i - 5), 16);
    list[i] := block;
    list[i + 1] := Add(step16, list[i - 7]);
    list[i + 2] := Add(step16, list[i - 6]);
    list[i + 3] := Add(step16, list[i - 5]);
    assert 2 * (i - 7) + 16 == 2 * (i + 1) && 2 * (i - 6) + 16 == 2 * (i + 2) && 2 * (i - 5) + 16 == 2 * (i + 3);
  }

  lemma StepsAre(stride: int)
    ensures Pair(0, Low32(2 * stride), 0, Low32(2 * stride)) == Step(stride, 2)
    ensures Pair(0, Low32(8 * stride), 0, Low32(8 * stride)) == Step(stride, 8)
    ensures Add(Step(stride, 2), Step(stride, 2)) == Step(stride, 4) && Add(Step(stride, 4), Step(stride, 2)) == Step(stride, 6)
    ensures Add(Step(stride, 8), Step(stride, 8)) == Step(stride, 16)
  {
    RowsStep(0, stride, 2, 2);
    RowsStep(0, stride, 4, 2);
    RowsStep(0, stride, 8, 8);
    hide Add;
  }

  lemma LowerRows(eal: int, stride: int, k: nat)
    ensures Add(Rows(eal, stride, k), Step(stride, 2)) == Rows(eal, stride, k + 2)
    ensures Add(Rows(eal, stride, k), Step(stride, 4)) == Rows(eal, stride, k + 4)
    ensures Add(Rows(eal, stride, k), Step(stride, 6)) == Rows(eal, stride, k + 6)
    ensures Add(Rows(eal, stride, k), Step(stride, 8)) == Rows(eal, stride, k + 8)
  {
    RowsStep(eal, stride, k, 2);
    RowsStep(eal, stride, k, 4);
    RowsStep(eal, stride, k, 6);
    RowsStep(eal, stride, k, 8);
    hide Add, Rows, Step;
  }

  lemma FirstRows(eal: int, stride: int)
    requires 0 <= eal < SPAN
    ensures Pair(128, eal, 128, Low32(eal + stride)) == Rows(eal, stride, 0)
  {
  }

  /** The list covers exactly the rows of the tile, top to bottom. */
  lemma ListIsTile(list: seq<Pair>, ea: int, stride: int)
    requires |list| == 16 && forall j :: 0 <= j < 16 ==> list[j] == Rows(ea % SPAN, stride, 2 * j)
    ensures IsTileList(list, ea, stride)
  {
    forall k: nat | k < ROWS
      ensures Size(list, k) == 128 && Low(list, k) == (ea % SPAN + k * stride) % SPAN
    {
      assert list[k / 2] == Rows(ea % SPAN, stride, 2 * (k / 2));
      assert k == 2 * (k / 2) + k % 2;
    }
  }

  // ---- the buffer ----

  /** The frame buffer's memory; the local pixels; the list of the tile in them and the list to be
      filled next; how much of the current list is in use; the address words of the tile. */
  datatype Buffer = Buffer(mem: seq<bv32>, pixels: Pixels, current: seq<Pair>, spare: seq<Pair>, length: nat, eah: int, copy: int)

  function TileList(ea: int, stride: int): (r: seq<Pair>)
    ensures |r| == 16 && forall j :: 0 <= j < 16 ==> r[j] == Rows(ea % SPAN, stride, 2 * j)
  {
    seq(16, j requires 0 <= j < 16 => Rows(ea % SPAN, stride, 2 * j))
  }

  ghost predicate Shape(s: Buffer) {
    |s.current| == |s.spare| == 16
  }

  /** The rows that a transfer of `length` bytes of list moves. */
  function Elements(length: nat): nat {
    length / 8
  }

  /** The store of what is in the buffer, with the high address word eah. */
  function Stored(s: Buffer, eah: int): (r: seq<bv32>)
    requires Fits(s.current, eah, Elements(s.length), |s.mem|)
    ensures |r| == |s.mem|
  {
    Scatter(s.mem, s.pixels, s.current, eah, Elements(s.length))
  }

  /** blockActivater: makes the buffer hold the tile at ea. */
  function Activate(s: Buffer, ea: int, stride: int): (r: Buffer)
    requires Shape(s) && InRange(ea, stride, |s.mem|) && Fits(s.current, ea / SPAN, Elements(s.length), |s.mem|)
    ensures Shape(r) && |r.mem| == |s.mem|
  {
    if s.copy == ea then s
    else
      var list := TileList(ea, stride);
      var mem := Stored(s, ea / SPAN);
      ListIsTile(list, ea, stride);
      TileListFits(list, ea, stride, |mem|);
      Buffer(mem, Gather(mem, s.pixels, list, ea / SPAN, ROWS), list, s.current, 256, ea / SPAN, ea)
  }

  /** activeBlockFlush. */
  function Flush(s: Buffer): (r: Buffer)
    requires Shape(s) && (s.length > 0 ==> Fits(s.current, s.eah, Elements(s.length), |s.mem|))
    ensures Shape(r) && |r.mem| == |s.mem|
  {
    if s.length > 0 then s.(mem := Stored(s, s.eah), length := 0) else s
  }

  /** The buffer as the SPU keeps it: two list buffers that change places, and everything updated
      in place. */
  class Active {
    const mem: array<bv32>
    const pixels: array<bv32>
    var current: array<Pair>
    var spare: array<Pair>
    var length: nat
    var eah: int
    var copy: int

    ghost predicate Valid()
      reads this, current, spare
    {
      && pixels.Length == WORDS && current.Length == spare.Length == 16
      && current != spare && mem != pixels && {mem as object, pixels} !! {current as object, spare}
    }

    ghost function View(): Buffer
      reads this, mem, pixels, current, spare
      requires Valid()
    {
      Buffer(mem[..], pixels[..], current[..], spare[..], length, eah, copy)
    }

    constructor (mem: array<bv32>, pixels: array<bv32>, list1: array<Pair>, list2: array<Pair>)
      requires pixels.Length == WORDS && list1.Length == list2.Length == 16 && list1 != list2 && mem != pixels
      requires {mem as object, pixels} !! {list1 as object, list2}
      ensures Valid() && this.mem == mem && this.pixels == pixels && spare == list1 && current == list2
      ensures View() == Init(mem[..], pixels[..], list1[..], list2[..])
    {
      this.mem, this.pixels, current, spare := mem, pixels, list2, list1;
      length, eah, copy := 0, 0, 0;
    }

    /** The list transfers, element after element, as the hardware makes them. */
    method PutList(list: seq<Pair>, high: int, n: nat)
      requires pixels.Length == WORDS && mem != pixels && Fits(list, high, n, mem.Length)
      modifies mem
      ensures mem[..] == Scatter(old(mem[..]), pixels[..], list, high, n)
    {
      hide RowFits, Place, Fits, Scatter;
      FitsNone(list, high, n, mem.Length);
      NothingPut(mem[..], pixels[..], list, high);
      var k := 0;
      while k < n
        invariant 0 <= k <= n && Fits(list, high, k, mem.Length) && pixels[..] == old(pixels[..])
        invariant mem[..] == Scatter(old(mem[..]), pixels[..], list, high, k)
      {
        ScatterNext(old(mem[..]), pixels[..], list, high, k, n);
        var at := Place(list, high, k);
        ghost var before := mem[..];
        forall c | 0 <= c < 32 {
          mem[at + c] := pixels[32 * k + c];
        }
        assert mem[..] == Overwrite(before, at, pixels[..][32 * k..32 * (k + 1)]);
        k := k + 1;
      }
    }

    method GetList(list: seq<Pair>, high: int, n: nat)
      requires pixels.Length == WORDS && mem != pixels && Fits(list, high, n, mem.Length)
      modifies pixels
      ensures pixels[..] == Gather(mem[..], old(pixels[..]), list, high, n)
    {
      hide RowFits, Place, Fits, Gather;
      FitsNone(list, high, n, mem.Length);
      NothingGot(mem[..], pixels[..], list, high);
      var k := 0;
      while k < n
        invariant 0 <= k <= n && Fits(list, high, k, mem.Length) && mem[..] == old(mem[..])
        invariant pixels[..] == Gather(mem[..], old(pixels[..]), list, high, k)
      {
        GatherNext(mem[..], old(pixels[..]), list, high, k, n);
        var at := Place(list, high, k);
        ghost var before := pixels[..];
        forall c | 0 <= c < 32 {
          pixels[32 * k + c] := mem[at + c];
        }
        assert pixels[..] == Overwrite(before, 32 * k, mem[..][at..at + 32]);
        k := k + 1;
      }
    }

    method BlockActivater(ea: int, stride: int)
      requires Valid() && InRange(ea, stride, mem.Length)
      requires Fits(current[..], ea / SPAN, Elements(length), mem.Length)
      modifies this, mem, pixels, current, spare
      ensures Valid() && current == (if old(copy) == ea then old(current) else old(spare))
      ensures spare == if old(copy) == ea then old(spare) else old(current)
      ensures View() == Activate(old(View()), ea, stride)
    {
      hide Fits, Scatter, Gather, Rows;
      if copy != ea {
        copy := ea;
        ghost var s := old(View());
        BuildBlitList(spare, ea % SPAN, stride);
        ghost var list := spare[..];
        assert list == TileList(ea, stride) && current[..] == s.current && mem[..] == s.mem && pixels[..] == s.pixels;
        ListIsTile(list, ea, stride);
        TileListFits(list, ea, stride, mem.Length);
        PutList(current[..], ea / SPAN, Elements(length));
        GetList(spare[..], ea / SPAN, ROWS);
        length := 256;
        current, spare := spare, current;
        eah := ea / SPAN;
      }
    }

    method Store()
      requires Valid() && (length > 0 ==> Fits(current[..], eah, Elements(length), mem.Length))
      modifies this`length, mem
      ensures Valid() && View() == Flush(old(View()))
    {
      hide Fits, Scatter;
      if length > 0 {
        ghost var s := View();
        PutList(current[..], eah, Elements(length));
        assert mem[..] == Stored(s, eah) && current[..] == s.current && pixels[..] == s.pixels && spare[..] == s.spare;
        length := 0;
      }
    }
  }

  /** activeBlockInit: whatever the lists and the pixels hold. */
  function Init(mem: seq<bv32>, pixels: Pixels, list1: seq<Pair>, list2: seq<Pair>): Buffer {
    Buffer(mem, pixels, list2, list1, 0, 0, 0)
  }

  // ---- drawing ----

  /** Some drawing on the tile at ea. */
  datatype Op = Op(ea: int, draw: Pixels -> Pixels)

  /** The tiles all have the same high address word, and none is at address 0. */
  ghost predicate Possible(op: Op, stride: int, eah: int, words: nat) {
    InRange(op.ea, stride, words) && op.ea / SPAN == eah && op.ea > 0
  }

  /** Drawing straight in memory. */
  function Direct(mem: seq<bv32>, op: Op, stride: int): (r: seq<bv32>)
    requires InRange(op.ea, stride, |mem|)
    ensures |r| == |mem|
  {
    PutTile(mem, op.ea, stride, op.draw(GetTile(mem, op.ea, stride)))
  }

  ghost function DirectAll(mem: seq<bv32>, ops: seq<Op>, stride: int, eah: int): (r: seq<bv32>)
    requires forall i :: 0 <= i < |ops| ==> Possible(ops[i], stride, eah, |mem|)
    ensures |r| == |mem|
  {
    if ops == [] then mem
    else
      var last := ops[|ops| - 1];
      assert Possible(last, stride, eah, |mem|);
      Direct(DirectAll(mem, ops[..|ops| - 1], stride, eah), last, stride)
  }

  /** Nothing has been fetched yet and memory is as it should be; or the buffer holds a tile whose
      store would make it so. */
  ghost predicate Holds(s: Buffer, mem: seq<bv32>, stride: int, eah: int) {
    && Shape(s) && |s.mem| == |mem|
    && if s.copy == 0 then s.length == 0 && s.mem == mem
       else
         && InRange(s.copy, stride, |mem|) && s.copy / SPAN == s.eah == eah && s.length == 256
         && IsTileList(s.current, s.copy, stride) && mem == PutTile(s.mem, s.copy, stride, s.pixels)
  }

  lemma HoldsFits(s: Buffer, mem: seq<bv32>, stride: int, eah: int)
    requires Holds(s, mem, stride, eah)
    ensures Fits(s.current, eah, Elements(s.length), |s.mem|) && Stored(s, eah) == mem
    ensures s.length > 0 ==> s.eah == eah
  {
    hide InRange, IsTileList, PutRows;
    if s.copy != 0 {
      ScatterIsPut(s.mem, s.copy, stride, s.pixels, s.current, ROWS);
    } else {
      assert Fits(s.current, eah, 0, |s.mem|);
    }
  }

  lemma ActivateHolds(s: Buffer, mem: seq<bv32>, ea: int, stride: int, eah: int)
    requires Holds(s, mem, stride, eah) && InRange(ea, stride, |mem|) && ea / SPAN == eah && ea > 0
    ensures Fits(s.current, ea / SPAN, Elements(s.length), |s.mem|)
    ensures var r := Activate(s, ea, stride);
            Holds(r, mem, stride, eah) && r.copy == ea && r.pixels == GetTile(mem, ea, stride)
  {
    hide InRange, IsTileList, PutRows, GetTile, Gather, Scatter, Fits;
    HoldsFits(s, mem, stride, eah);
    if s.copy == ea {
      GetPut(s.mem, ea, stride, s.pixels);
    } else {
      ListIsTile(TileList(ea, stride), ea, stride);
      GatherIsGet(mem, ea, stride, s.pixels, TileList(ea, stride), ROWS);
      PutGet(mem, ea, stride);
      assert Gather(mem, s.pixels, TileList(ea, stride), ea / SPAN, ROWS) == GetTile(mem, ea, stride);
    }
  }

  /** An activation and the drawing that follows it. */
  function Drawn(s: Buffer, op: Op, stride: int): (r: Buffer)
    requires Shape(s) && InRange(op.ea, stride, |s.mem|) && Fits(s.current, op.ea / SPAN, Elements(s.length), |s.mem|)
    ensures Shape(r) && |r.mem| == |s.mem|
  {
    var a := Activate(s, op.ea, stride);
    a.(pixels := op.draw(a.pixels))
  }

  lemma DrawnHolds(s: Buffer, mem: seq<bv32>, op: Op, stride: int, eah: int)
    requires Holds(s, mem, stride, eah) && Possible(op, stride, eah, |mem|)
    ensures Fits(s.current, op.ea / SPAN, Elements(s.length), |s.mem|)
    ensures Holds(Drawn(s, op, stride), Direct(mem, op, stride), stride, eah) && Drawn(s, op, stride).copy == op.ea
  {
    hide InRange, IsTileList, PutTile, GetTile, Activate, Fits;
    ActivateHolds(s, mem, op.ea, stride, eah);
    var a := Activate(s, op.ea, stride);
    PutPut(a.mem, op.ea, stride, a.pixels, op.draw(a.pixels));
  }

  ghost function DrawAll(s: Buffer, mem: seq<bv32>, ops: seq<Op>, stride: int, eah: int): (r: Buffer)
    requires Holds(s, mem, stride, eah) && forall i :: 0 <= i < |ops| ==> Possible(ops[i], stride, eah, |mem|)
    ensures Holds(r, DirectAll(mem, ops, stride, eah), stride, eah)
    ensures ops != [] ==> r.copy == ops[|ops| - 1].ea
  {
    if ops == [] then s
    else
      var last := ops[|ops| - 1];
      var a := DrawAll(s, mem, ops[..|ops| - 1], stride, eah);
      assert Possible(last, stride, eah, |mem|);
      DrawnHolds(a, DirectAll(mem, ops[..|ops| - 1], stride, eah), last, stride, eah);
      Drawn(a, last, stride)
  }

  /** From the initial state, whatever tiles are drawn on in whatever order: after the flush memory
      is as if every drawing had been done straight in it. */
  lemma FlushWritesAll(mem: seq<bv32>, pixels: Pixels, list1: seq<Pair>, list2: seq<Pair>, ops: seq<Op>, stride: int, eah: int)
    requires |list1| == |list2| == 16 && forall i :: 0 <= i < |ops| ==> Possible(ops[i], stride, eah, |mem|)
    ensures var s := DrawAll(Init(mem, pixels, list1, list2), mem, ops, stride, eah);
            && (s.length > 0 ==> Fits(s.current, s.eah, Elements(s.length), |s.mem|))
            && Flush(s).mem == DirectAll(mem, ops, stride, eah)
  {
    var s := DrawAll(Init(mem, pixels, list1, list2), mem, ops, stride, eah);
    HoldsFits(s, DirectAll(mem, ops, stride, eah), stride, eah);
  }

  // ---- after a flush ----

  /** The flush forgets how much of the list is in use but not which tile is held. What is drawn
      next reaches memory with the flush after it exactly if it is on another tile, or if drawing
      changes nothing. */
  lemma SecondFlush(s: Buffer, mem: seq<bv32>, op: Op, stride: int, eah: int)
    requires Holds(s, mem, stride, eah) && s.copy != 0 && Possible(op, stride, eah, |mem|)
    ensures s.length > 0 ==> Fits(s.current, s.eah, Elements(s.length), |s.mem|)
    ensures var f := Flush(s);
            && Fits(f.current, op.ea / SPAN, Elements(f.length), |f.mem|)
            && var d := Drawn(f, op, stride);
               && (d.length > 0 ==> Fits(d.current, d.eah, Elements(d.length), |d.mem|))
               && (Flush(d).mem == Direct(mem, op, stride) <==> op.ea != s.copy || op.draw(GetTile(mem, op.ea, stride)) == GetTile(mem, op.ea, stride))
               && (op.ea == s.copy ==> Flush(d).mem == mem)
  {
    hide InRange, IsTileList, PutRows, GetTile, Gather, Scatter, Fits;
    HoldsFits(s, mem, stride, eah);
    var f := Flush(s);
    NoElements(f.current, op.ea / SPAN, |f.mem|);
    if op.ea == s.copy {
      var was := GetTile(mem, op.ea, stride);
      GetPut(mem, op.ea, stride, op.draw(was));
      PutGet(mem, op.ea, stride);
    } else {
      var g := f.(copy := 0);
      assert Holds(g, mem, stride, eah);
      DrawnHolds(g, mem, op, stride, eah);
      assert Drawn(f, op, stride) == Drawn(g, op, stride);
      HoldsFits(Drawn(g, op, stride), Direct(mem, op, stride), stride, eah);
    }
  }

  lemma NoElements(list: seq<Pair>, eah: int, words: nat)
    requires |list| == 16
    ensures Fits(list, eah, 0, words)
  {
  }
}
