/** The hash table as it is kept: four vectors of eight halfwords, with comparison, rotation, selection
    and gathering of whole vectors in place of indexing. A 32-bit word is the set of its set bits,
    counted from the most significant one. */
module HashVectors {
  import opened QueueState

  type Vector = v: seq<int> | |v| == 8 witness [0, 0, 0, 0, 0, 0, 0, 0]
  type Word = set<nat>
  type Halves = m: seq<bool> | |m| == 8 witness [false, false, false, false, false, false, false, false]

  datatype Table = Table(hash0: Vector, hash1: Vector, hash2: Vector, hash3: Vector)

  /** The entry of slot k is halfword k % 8 of vector 3 - k / 8. */
  function Entries(t: Table): (r: seq<int>)
    ensures |r| == SLOTS
  {
    t.hash3 + t.hash2 + t.hash1 + t.hash0
  }

  // ---- the instructions ----

  function Splat(v: int): Vector {
    [v, v, v, v, v, v, v, v]
  }

  function RotateLeft(w: Word, n: nat): Word
    requires n <= 32
  {
    set p | p in w :: (p + 32 - n) % 32
  }

  /** The bottom eight bits of a word, spread over eight halfwords. */
  function MaskOfHalves(w: Word): Halves {
    seq(8, j => 24 + j in w)
  }

  function Equal(a: Vector, b: Vector): Halves {
    seq(8, j requires 0 <= j < 8 => a[j] == b[j])
  }

  function Select(a: Vector, b: Vector, m: Halves): Vector {
    seq(8, j requires 0 <= j < 8 => if m[j] then b[j] else a[j])
  }

  /** Or with a mask of all-ones and all-zeros halfwords. */
  function Or(a: Vector, m: Halves): Vector {
    seq(8, j requires 0 <= j < 8 => if m[j] then EMPTY else a[j])
  }

  /** One bit of each halfword, in the bottom eight bits of a word. */
  function Gather(m: Halves): Word {
    set j: nat | j < 8 && m[j] :: 24 + j
  }

  /** The bottom byte of a word moved to byte k of another, the others zero. */
  function MoveByte(w: Word, k: nat): Word
    requires k < 4
  {
    set p | p in w && 24 <= p < 32 :: p - 24 + 8 * k
  }

  function CountLeadingZeros(w: Word, k: nat): (r: nat)
    requires k <= 32
    ensures k <= r <= 32 && (r < 32 ==> r in w) && forall p :: k <= p < r ==> p !in w
    decreases 32 - k
  {
    if k == 32 || k in w then k else CountLeadingZeros(w, k + 1)
  }

  // ---- clear_hash and chain_hash ----

  /** The bit of slot idx: in the word that belongs to its vector, at the place of its halfword. */
  function SlotBit(first: nat, idx: nat): Halves
    requires first < 32 && idx < SLOTS
  {
    MaskOfHalves(RotateLeft({first}, 32 - idx))
  }

  function ClearHash(t: Table, idx: nat): Table
    requires idx < SLOTS
  {
    Table(Select(t.hash0, Splat(EMPTY), SlotBit(0, idx)), Select(t.hash1, Splat(EMPTY), SlotBit(8, idx)),
          Select(t.hash2, Splat(EMPTY), SlotBit(16, idx)), Select(t.hash3, Splat(EMPTY), SlotBit(24, idx)))
  }

  /** One vector of the table: entries with the hash are wiped, and the slot's own gets the hash. */
  function Chained(h: Vector, hash: int, bit: Halves): Vector {
    Select(Or(h, Equal(Splat(hash), h)), Splat(hash), bit)
  }

  function ChainHash(t: Table, hash: int, idx: nat): Table
    requires idx < SLOTS
  {
    Table(Chained(t.hash0, hash, SlotBit(0, idx)), Chained(t.hash1, hash, SlotBit(8, idx)),
          Chained(t.hash2, hash, SlotBit(16, idx)), Chained(t.hash3, hash, SlotBit(24, idx)))
  }

  /** The slot that held the hash before. */
  function Holder(t: Table, hash: int): nat {
    var c := Splat(hash);
    CountLeadingZeros(
      MoveByte(Gather(Equal(c, t.hash0)), 3) + MoveByte(Gather(Equal(c, t.hash1)), 2)
      + (MoveByte(Gather(Equal(c, t.hash2)), 1) + MoveByte(Gather(Equal(c, t.hash3)), 0)), 0)
  }

  // ---- what they come to ----

  /** In vector k the slot's bit is set exactly for the slot's own entry. */
  lemma SlotBitIs(k: nat, idx: nat, j: nat)
    requires k < 4 && idx < SLOTS && j < 8
    ensures SlotBit(8 * (3 - k), idx)[j] <==> idx == 8 * k + j
  {
    var p := 8 * (3 - k);
    assert RotateLeft({p}, 32 - idx) == {(p + idx) % 32} by {
      assert (p + 32 - (32 - idx)) % 32 == (p + idx) % 32;
    }
  }

  lemma EntryOf(t: Table, k: nat, j: nat)
    requires k < 4 && j < 8
    ensures Entries(t)[8 * k + j] == (if k == 0 then t.hash3 else if k == 1 then t.hash2 else if k == 2 then t.hash1 else t.hash0)[j]
  {
  }

  lemma SplitSlot(i: nat) returns (k: nat, j: nat)
    requires i < SLOTS
    ensures k < 4 && j < 8 && i == 8 * k + j
  {
    k, j := i / 8, i % 8;
  }

  /** clear_hash empties the entry of the slot and no other. */
  lemma ClearIsUpdate(t: Table, idx: nat)
    requires idx < SLOTS
    ensures Entries(ClearHash(t, idx)) == Entries(t)[idx := EMPTY]
  {
    hide SlotBit;
    forall i: nat | i < SLOTS ensures Entries(ClearHash(t, idx))[i] == Entries(t)[idx := EMPTY][i] {
      var k, j := SplitSlot(i);
      EntryOf(t, k, j);
      EntryOf(ClearHash(t, idx), k, j);
      SlotBitIs(k, idx, j);
      hide Entries;
    }
  }

  lemma ChainedEntry(h: Vector, hash: int, bit: Halves, j: nat)
    requires j < 8
    ensures Chained(h, hash, bit)[j] == if bit[j] then hash else if h[j] == hash then EMPTY else h[j]
  {
  }

  /** chain_hash wipes the entries with the hash and enters it for the slot. */
  lemma ChainIsChainTable(t: Table, hash: int, idx: nat)
    requires idx < SLOTS
    ensures Entries(ChainHash(t, hash, idx)) == ChainTable(Entries(t), hash, idx)
  {
    hide SlotBit;
    forall i: nat | i < SLOTS ensures Entries(ChainHash(t, hash, idx))[i] == ChainTable(Entries(t), hash, idx)[i] {
      var k, j := SplitSlot(i);
      EntryOf(t, k, j);
      EntryOf(ChainHash(t, hash, idx), k, j);
      SlotBitIs(k, idx, j);
      ChainedEntry(t.hash0, hash, SlotBit(0, idx), j);
      ChainedEntry(t.hash1, hash, SlotBit(8, idx), j);
      ChainedEntry(t.hash2, hash, SlotBit(16, idx), j);
      ChainedEntry(t.hash3, hash, SlotBit(24, idx), j);
      hide Entries, Chained;
    }
  }

  /** The bits of the gathered word are the entries that hold the hash. */
  lemma GatheredBits(t: Table, hash: int, i: nat)
    requires i < SLOTS
    ensures var c := Splat(hash);
            i in MoveByte(Gather(Equal(c, t.hash0)), 3) + MoveByte(Gather(Equal(c, t.hash1)), 2)
                 + (MoveByte(Gather(Equal(c, t.hash2)), 1) + MoveByte(Gather(Equal(c, t.hash3)), 0))
            <==> Entries(t)[i] == hash
  {
    var k, j := SplitSlot(i);
    EntryOf(t, k, j);
    hide Entries;
    var c := Splat(hash);
    MovedBit(Equal(c, t.hash3), 0, k, j);
    MovedBit(Equal(c, t.hash2), 1, k, j);
    MovedBit(Equal(c, t.hash1), 2, k, j);
    MovedBit(Equal(c, t.hash0), 3, k, j);
    hide MoveByte, Gather;
  }

  lemma MovedBit(m: Halves, n: nat, k: nat, j: nat)
    requires n < 4 && k < 4 && j < 8
    ensures 8 * k + j in MoveByte(Gather(m), n) <==> n == k && m[j]
  {
    if n == k && m[j] {
      assert 24 + j in Gather(m);
      assert (24 + j) - 24 + 8 * k in MoveByte(Gather(m), n);
    }
    if 8 * k + j in MoveByte(Gather(m), n) {
      var p :| p in Gather(m) && 24 <= p < 32 && p - 24 + 8 * n == 8 * k + j;
      assert n == k && p == 24 + j;
    }
  }

  /** The count of leading zeros is the lowest slot that holds the hash, or 32. */
  lemma HolderIsLowestMatch(t: Table, hash: int)
    ensures Holder(t, hash) == LowestMatch(Entries(t), hash, 0)
  {
    var h, l := Holder(t, hash), LowestMatch(Entries(t), hash, 0);
    if h < SLOTS {
      GatheredBits(t, hash, h);
    }
    if l < SLOTS {
      GatheredBits(t, hash, l);
    }
    hide MoveByte, Gather, Equal, Entries;
  }

  lemma EmptyEntries()
    ensures var e := Splat(EMPTY); Entries(Table(e, e, e, e)) == seq(SLOTS, b => EMPTY)
  {
  }
}
