/** Moving a tile of 32 rows of 32 pixels between the frame buffer and the local store: as a
    rectangle of the screen, and as the list of row transfers that the hardware is given. */
module TileMemory {
  import opened Division

  const ROWS: nat := 32
  const WORDS: nat := 1024
  const SPAN: int := 0x1_0000_0000

  type Pixels = p: seq<bv32> | |p| == WORDS witness seq(WORDS, i => 0)

  // ---- as a rectangle ----

  /** The tile at byte address ea is inside memory, its rows do not overlap, and it does not run
      over the end of what 32 address bits can reach. */
  predicate InRange(ea: int, stride: int, words: nat) {
    && 0 <= ea && ea % 4 == 0 && stride % 4 == 0 && 128 <= stride
    && ea % SPAN + 31 * stride < SPAN && ea / 4 + 31 * (stride / 4) + 32 <= words
  }

  function RowStart(ea: int, stride: int, row: int): int {
    ea / 4 + row * (stride / 4)
  }

  lemma RowsInRange(ea: int, stride: int, words: nat, row: nat)
    requires InRange(ea, stride, words) && row < ROWS
    ensures 0 <= RowStart(ea, stride, row) && RowStart(ea, stride, row) + 32 <= words
  {
    Room(row, stride / 4);
  }

  lemma Room(row: nat, across: int)
    requires row < ROWS && across >= 0
    ensures 0 <= row * across <= 31 * across
  {
    assert (31 - row) * across >= 0;
  }

  function GetTile(mem: seq<bv32>, ea: int, stride: int): Pixels
    requires InRange(ea, stride, |mem|)
  {
    seq(WORDS, i requires 0 <= i < WORDS =>
      RowsInRange(ea, stride, |mem|, i / 32);
      mem[RowStart(ea, stride, i / 32) + i % 32])
  }

  /** Word w of memory is in the first n rows of the tile. */
  predicate InTile(ea: int, stride: int, n: nat, w: int)
    requires stride >= 128
  {
    var d, across := w - ea / 4, stride / 4;
    0 <= d && d / across < n && d % across < 32
  }

  /** The pixel that belongs at word w. */
  function PixelAt(ea: int, stride: int, n: nat, w: int): (i: nat)
    requires stride >= 128 && n <= ROWS && InTile(ea, stride, n, w)
    ensures i < WORDS
  {
    32 * ((w - ea / 4) / (stride / 4)) + (w - ea / 4) % (stride / 4)
  }

  function PutRows(mem: seq<bv32>, ea: int, stride: int, pixels: Pixels, n: nat): (r: seq<bv32>)
    requires InRange(ea, stride, |mem|) && n <= ROWS
    ensures |r| == |mem|
  {
    seq(|mem|, w requires 0 <= w < |mem| =>
      if InTile(ea, stride, n, w) then pixels[PixelAt(ea, stride, n, w)] else mem[w])
  }

  function PutTile(mem: seq<bv32>, ea: int, stride: int, pixels: Pixels): (r: seq<bv32>)
    requires InRange(ea, stride, |mem|)
    ensures |r| == |mem|
  {
    PutRows(mem, ea, stride, pixels, ROWS)
  }

  /** Which words a row has. */
  lemma RowWords(ea: int, stride: int, row: nat, c: int)
    requires stride >= 128 && 0 <= c < 32
    ensures var d := RowStart(ea, stride, row) + c - ea / 4;
            0 <= d && d / (stride / 4) == row && d % (stride / 4) == c
  {
    assert 0 <= row * (stride / 4);
    DivUnique(RowStart(ea, stride, row) + c - ea / 4, stride / 4, row, c);
  }

  lemma WordOfRow(ea: int, stride: int, n: nat, w: int)
    requires stride >= 128 && InTile(ea, stride, n, w)
    ensures var d, across := w - ea / 4, stride / 4;
            0 <= d / across && w == RowStart(ea, stride, d / across) + d % across
  {
    var d, across := w - ea / 4, stride / 4;
    assert d == across * (d / across) + d % across;
  }

  /** What was put is what is got. */
  lemma GetPut(mem: seq<bv32>, ea: int, stride: int, pixels: Pixels)
    requires InRange(ea, stride, |mem|)
    ensures GetTile(PutTile(mem, ea, stride, pixels), ea, stride) == pixels
  {
    var m := PutTile(mem, ea, stride, pixels);
    forall i | 0 <= i < WORDS ensures GetTile(m, ea, stride)[i] == pixels[i] {
      RowsInRange(ea, stride, |mem|, i / 32);
      RowWords(ea, stride, i / 32, i % 32);
    }
  }

  /** Putting back what was got changes nothing. */
  lemma PutGet(mem: seq<bv32>, ea: int, stride: int)
    requires InRange(ea, stride, |mem|)
    ensures PutTile(mem, ea, stride, GetTile(mem, ea, stride)) == mem
  {
    var p := GetTile(mem, ea, stride);
    var m := PutTile(mem, ea, stride, p);
    forall w | 0 <= w < |mem| ensures m[w] == mem[w] {
      if InTile(ea, stride, ROWS, w) {
        WordOfRow(ea, stride, ROWS, w);
        var d, across := w - ea / 4, stride / 4;
        var i := 32 * (d / across) + d % across;
        assert i / 32 == d / across && i % 32 == d % across;
      }
    }
  }

  /** The last put is the one that counts. */
  lemma PutPut(mem: seq<bv32>, ea: int, stride: int, p: Pixels, q: Pixels)
    requires InRange(ea, stride, |mem|)
    ensures PutTile(PutTile(mem, ea, stride, p), ea, stride, q) == PutTile(mem, ea, stride, q)
  {
    hide InTile, InRange;
  }

  // ---- as a list of transfers ----

  /** Four words: the sizes and the low address words of two list elements. */
  datatype Pair = Pair(size0: int, eal0: int, size1: int, eal1: int)

  function Size(list: seq<Pair>, k: nat): int
    requires k / 2 < |list|
  {
    if k % 2 == 0 then list[k / 2].size0 else list[k / 2].size1
  }

  function Low(list: seq<Pair>, k: nat): int
    requires k / 2 < |list|
  {
    if k % 2 == 0 then list[k / 2].eal0 else list[k / 2].eal1
  }

  /** The word of memory at which element k starts. */
  function Place(list: seq<Pair>, eah: int, k: nat): int
    requires k / 2 < |list|
  {
    (eah * SPAN + Low(list, k)) / 4
  }

  /** What the hardware asks of the first n elements of a list of whole rows. */
  ghost predicate Fits(list: seq<Pair>, eah: int, n: nat, words: nat) {
    n <= ROWS && |list| == 16 && forall k: nat :: k < n ==> RowFits(list, eah, k, words)
  }

  predicate RowFits(list: seq<Pair>, eah: int, k: nat, words: nat)
    requires k / 2 < |list|
  {
    Size(list, k) == 128 && 0 <= Place(list, eah, k) && Place(list, eah, k) + 32 <= words
  }

  function Overwrite(s: seq<bv32>, at: int, t: seq<bv32>): (r: seq<bv32>)
    requires 0 <= at && at + |t| <= |s|
    ensures |r| == |s|
  {
    s[..at] + t + s[at + |t|..]
  }

  /** A list transfer to memory, and one from memory. */
  function Scatter(mem: seq<bv32>, pixels: Pixels, list: seq<Pair>, eah: int, n: nat): (r: seq<bv32>)
    requires Fits(list, eah, n, |mem|)
    ensures |r| == |mem|
  {
    if n == 0 then mem
    else
      assert RowFits(list, eah, n - 1, |mem|);
      Overwrite(Scatter(mem, pixels, list, eah, n - 1), Place(list, eah, n - 1), pixels[32 * (n - 1)..32 * n])
  }

  function Gather(mem: seq<bv32>, pixels: Pixels, list: seq<Pair>, eah: int, n: nat): Pixels
    requires Fits(list, eah, n, |mem|)
  {
    if n == 0 then pixels
    else
      assert RowFits(list, eah, n - 1, |mem|);
      var at := Place(list, eah, n - 1);
      Overwrite(Gather(mem, pixels, list, eah, n - 1), 32 * (n - 1), mem[at..at + 32])
  }

  /** The list of the 32 rows of a tile. */
  ghost predicate IsTileList(list: seq<Pair>, ea: int, stride: int) {
    |list| == 16 && forall k: nat :: k < ROWS ==> Size(list, k) == 128 && Low(list, k) == (ea % SPAN + k * stride) % SPAN
  }

  /** Element k of the list is row k of the tile. */
  lemma TileListPlace(list: seq<Pair>, ea: int, stride: int, words: nat, k: nat)
    requires IsTileList(list, ea, stride) && InRange(ea, stride, words) && k < ROWS
    ensures Place(list, ea / SPAN, k) == RowStart(ea, stride, k) && RowFits(list, ea / SPAN, k, words)
  {
    ScaledRow(k, stride);
    RowsInRange(ea, stride, words, k);
    var low := ea % SPAN + k * stride;
    assert Low(list, k) == low % SPAN && 0 <= low < SPAN && Size(list, k) == 128;
    hide IsTileList, Low, Size, InRange;
    assert Low(list, k) == low;
    LowPart(ea, low, k * (stride / 4));
  }

  lemma LowPart(ea: int, low: int, words: int)
    requires ea % 4 == 0 && low == ea % SPAN + 4 * words
    ensures (ea / SPAN * SPAN + low) / 4 == ea / 4 + words
  {
    assert ea / SPAN * SPAN + low == ea + 4 * words;
  }

  lemma ScaledRow(k: nat, stride: int)
    requires k < ROWS && stride >= 0 && stride % 4 == 0
    ensures k * stride == 4 * (k * (stride / 4)) && 0 <= k * stride <= 31 * stride
  {
    var q := stride / 4;
    assert stride == 4 * q;
    FourTimes(k, q);
    Room(k, stride);
  }

  lemma FourTimes(k: int, q: int)
    ensures k * (4 * q) == 4 * (k * q)
  {
  }

  lemma TileListFits(list: seq<Pair>, ea: int, stride: int, words: nat)
    requires IsTileList(list, ea, stride) && InRange(ea, stride, words)
    ensures Fits(list, ea / SPAN, ROWS, words)
  {
    forall k: nat | k < ROWS ensures RowFits(list, ea / SPAN, k, words) {
      TileListPlace(list, ea, stride, words, k);
    }
  }

  lemma FitsFewer(list: seq<Pair>, eah: int, m: nat, n: nat, words: nat)
    requires Fits(list, eah, n, words) && m <= n
    ensures Fits(list, eah, m, words)
  {
  }

  lemma RowHasPlace(list: seq<Pair>, eah: int, k: nat, words: nat)
    requires k / 2 < |list| && RowFits(list, eah, k, words)
    ensures 0 <= Place(list, eah, k) && Place(list, eah, k) + 32 <= words
  {
  }

  lemma FitsNone(list: seq<Pair>, eah: int, n: nat, words: nat)
    requires Fits(list, eah, n, words)
    ensures Fits(list, eah, 0, words)
  {
  }

  lemma NothingPut(mem: seq<bv32>, pixels: Pixels, list: seq<Pair>, eah: int)
    requires Fits(list, eah, 0, |mem|)
    ensures Scatter(mem, pixels, list, eah, 0) == mem
  {
  }

  lemma NothingGot(mem: seq<bv32>, pixels: Pixels, list: seq<Pair>, eah: int)
    requires Fits(list, eah, 0, |mem|)
    ensures Gather(mem, pixels, list, eah, 0) == pixels
  {
  }

  lemma NextFits(list: seq<Pair>, eah: int, k: nat, n: nat, words: nat)
    requires Fits(list, eah, n, words) && k < n
    ensures Fits(list, eah, k, words) && Fits(list, eah, k + 1, words) && k < ROWS && k / 2 < |list|
    ensures RowFits(list, eah, k, words) && 0 <= Place(list, eah, k) && Place(list, eah, k) + 32 <= words
  {
    FitsFewer(list, eah, k, n, words);
    FitsFewer(list, eah, k + 1, n, words);
    assert RowFits(list, eah, k, words);
    RowHasPlace(list, eah, k, words);
  }

  /** One more element of a list transfer to memory. */
  lemma ScatterNext(mem: seq<bv32>, pixels: Pixels, list: seq<Pair>, eah: int, k: nat, n: nat)
    requires Fits(list, eah, n, |mem|) && k < n
    ensures Fits(list, eah, k, |mem|) && Fits(list, eah, k + 1, |mem|) && k < ROWS && k / 2 < |list|
    ensures 0 <= Place(list, eah, k) && Place(list, eah, k) + 32 <= |mem|
    ensures Scatter(mem, pixels, list, eah, k + 1) ==
            Overwrite(Scatter(mem, pixels, list, eah, k), Place(list, eah, k), pixels[32 * k..32 * (k + 1)])
  {
    NextFits(list, eah, k, n, |mem|);
    hide Fits, RowFits, Overwrite, Place;
  }

  /** And of one from memory. */
  lemma GatherNext(mem: seq<bv32>, pixels: Pixels, list: seq<Pair>, eah: int, k: nat, n: nat)
    requires Fits(list, eah, n, |mem|) && k < n
    ensures Fits(list, eah, k, |mem|) && Fits(list, eah, k + 1, |mem|) && k < ROWS && k / 2 < |list|
    ensures 0 <= Place(list, eah, k) && Place(list, eah, k) + 32 <= |mem|
    ensures Gather(mem, pixels, list, eah, k + 1) ==
            Overwrite(Gather(mem, pixels, list, eah, k), 32 * k, mem[Place(list, eah, k)..Place(list, eah, k) + 32])
  {
    NextFits(list, eah, k, n, |mem|);
    hide Fits, RowFits, Overwrite, Place;
  }

  lemma PutNextRow(mem: seq<bv32>, ea: int, stride: int, pixels: Pixels, n: nat)
    requires InRange(ea, stride, |mem|) && n < ROWS
    ensures 0 <= RowStart(ea, stride, n) && RowStart(ea, stride, n) + 32 <= |mem|
    ensures PutRows(mem, ea, stride, pixels, n + 1) ==
            Overwrite(PutRows(mem, ea, stride, pixels, n), RowStart(ea, stride, n), pixels[32 * n..32 * (n + 1)])
  {
    var at := RowStart(ea, stride, n);
    RowsInRange(ea, stride, |mem|, n);
    var before, after := PutRows(mem, ea, stride, pixels, n), PutRows(mem, ea, stride, pixels, n + 1);
    var row := pixels[32 * n..32 * (n + 1)];
    forall w | 0 <= w < |mem| ensures after[w] == if at <= w < at + 32 then row[w - at] else before[w] {
      if at <= w < at + 32 {
        RowWords(ea, stride, n, w - at);
      } else if InTile(ea, stride, n + 1, w) {
        WordOfRow(ea, stride, n + 1, w);
        assert (w - ea / 4) / (stride / 4) != n;
      }
    }
  }

  /** A list transfer of all rows is the tile put as a rectangle. */
  lemma {:induction false} ScatterIsPut(mem: seq<bv32>, ea: int, stride: int, pixels: Pixels, list: seq<Pair>, n: nat)
    requires InRange(ea, stride, |mem|) && IsTileList(list, ea, stride) && n <= ROWS
    ensures Fits(list, ea / SPAN, n, |mem|)
    ensures Scatter(mem, pixels, list, ea / SPAN, n) == PutRows(mem, ea, stride, pixels, n)
  {
    hide PutRows, InTile, Overwrite, IsTileList, InRange, Scatter, Fits, RowFits, Place;
    TileListFits(list, ea, stride, |mem|);
    FitsFewer(list, ea / SPAN, n, ROWS, |mem|);
    if n == 0 {
      NothingPut(mem, pixels, list, ea / SPAN);
      PutNothing(mem, ea, stride, pixels);
    } else {
      ScatterIsPut(mem, ea, stride, pixels, list, n - 1);
      ScatterNext(mem, pixels, list, ea / SPAN, n - 1, n);
      TileListPlace(list, ea, stride, |mem|, n - 1);
      PutNextRow(mem, ea, stride, pixels, n - 1);
    }
  }

  lemma PutNothing(mem: seq<bv32>, ea: int, stride: int, pixels: Pixels)
    requires InRange(ea, stride, |mem|)
    ensures PutRows(mem, ea, stride, pixels, 0) == mem
  {
    forall w | 0 <= w < |mem| ensures !InTile(ea, stride, 0, w) {
      if InTile(ea, stride, 0, w) {
        WordOfRow(ea, stride, 0, w);
      }
    }
  }

  lemma {:induction false} GatherIsGet(mem: seq<bv32>, ea: int, stride: int, pixels: Pixels, list: seq<Pair>, n: nat)
    requires InRange(ea, stride, |mem|) && IsTileList(list, ea, stride) && n <= ROWS
    ensures Fits(list, ea / SPAN, n, |mem|)
    ensures Gather(mem, pixels, list, ea / SPAN, n) == GetTile(mem, ea, stride)[..32 * n] + pixels[32 * n..]
  {
    hide IsTileList, InRange, GetTile, Gather, Fits, RowFits, Place, Overwrite;
    TileListFits(list, ea, stride, |mem|);
    FitsFewer(list, ea / SPAN, n, ROWS, |mem|);
    if n == 0 {
      NothingGot(mem, pixels, list, ea / SPAN);
    } else {
      GatherIsGet(mem, ea, stride, pixels, list, n - 1);
      GatherNext(mem, pixels, list, ea / SPAN, n - 1, n);
      TileListPlace(list, ea, stride, |mem|, n - 1);
      GetRow(mem, ea, stride, n - 1);
      RowIn(GetTile(mem, ea, stride), pixels, n);
    }
  }

  lemma RowIn(tile: Pixels, pixels: Pixels, n: nat)
    requires 0 < n <= ROWS
    ensures Overwrite(tile[..32 * (n - 1)] + pixels[32 * (n - 1)..], 32 * (n - 1), tile[32 * (n - 1)..32 * n]) ==
            tile[..32 * n] + pixels[32 * n..]
  {
  }

  lemma GetRow(mem: seq<bv32>, ea: int, stride: int, row: nat)
    requires InRange(ea, stride, |mem|) && row < ROWS
    ensures var at := RowStart(ea, stride, row);
            0 <= at && at + 32 <= |mem| && GetTile(mem, ea, stride)[32 * row..32 * row + 32] == mem[at..at + 32]
  {
    RowsInRange(ea, stride, |mem|, row);
    var at := RowStart(ea, stride, row);
    var got, want := GetTile(mem, ea, stride)[32 * row..32 * row + 32], mem[at..at + 32];
    forall c | 0 <= c < 32 ensures got[c] == want[c] {
      assert (32 * row + c) / 32 == row && (32 * row + c) % 32 == c;
    }
  }
}
