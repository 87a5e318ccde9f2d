/** The hash table and chained_block represent, for every hash, a queue (a line) of the
    unfinished blocks with that hash, oldest first. Here: pushing a block (chain_hash) and
    popping the oldest one (clear_hash and the chained_block bookkeeping beside it). */
module HashChains {
  import opened QueueState

  datatype Chains = Chains(
    free: set<nat>, labels: seq<Label>, table: seq<int>, chained: seq<int>, lines: map<int, seq<nat>>)

  ghost predicate Sized(c: Chains) {
    |c.labels| == SLOTS && |c.table| == SLOTS && |c.chained| == SLOTS + 1
  }

  ghost predicate OfHash(c: Chains, h: int, q: seq<nat>)
    requires Sized(c)
  {
    && 0 <= h < EMPTY && q != []
    && (forall i :: 0 <= i < |q| ==> q[i] < SLOTS && q[i] !in c.free && c.labels[q[i]].hash == h)
    && (forall i, j :: 0 <= i < j < |q| ==> q[i] != q[j])
  }

  /** chained_block links the line front to back, and only its last block is in the table. */
  ghost predicate Linked(c: Chains, h: int, q: seq<nat>)
    requires Sized(c) && OfHash(c, h, q)
  {
    && (forall i :: 0 <= i < |q| - 1 ==> c.chained[q[i]] == q[i + 1] && c.table[q[i]] == EMPTY)
    && c.chained[q[|q| - 1]] == -1 && c.table[q[|q| - 1]] == h
  }

  ghost predicate Line(c: Chains, h: int, q: seq<nat>)
    requires Sized(c)
  {
    OfHash(c, h, q) && Linked(c, h, q)
  }

  /** An unfinished block is in the line of its hash. */
  ghost predicate Queued(c: Chains, b: nat)
    requires Sized(c) && b < SLOTS
  {
    c.labels[b].hash in c.lines && b in c.lines[c.labels[b].hash]
  }

  ghost predicate Blank(c: Chains, b: nat)
    requires Sized(c) && b < SLOTS
  {
    c.chained[b] == -1 && c.table[b] == EMPTY
  }

  ghost predicate Represented(c: Chains) {
    && Sized(c)
    && (forall h :: h in c.lines ==> Line(c, h, c.lines[h]))
    && (forall b :: 0 <= b < SLOTS && b !in c.free ==> Queued(c, b))
    && (forall b :: 0 <= b < SLOTS && b in c.free ==> Blank(c, b))
  }

  /** What the table answers: the last block of the hash's line, or 32 when it has none. */
  lemma TableLookup(c: Chains, h: int)
    requires Represented(c) && h != EMPTY
    ensures LowestMatch(c.table, h, 0) ==
            if h in c.lines then c.lines[h][|c.lines[h]| - 1] else SLOTS
  {
    var r := LowestMatch(c.table, h, 0);
    if r < SLOTS {
      assert !Blank(c, r) && Queued(c, r);
      var g := c.labels[r].hash;
      var q := c.lines[g];
      assert Line(c, g, q);
      var i :| 0 <= i < |q| && q[i] == r;
      assert i == |q| - 1;
    }
    if h in c.lines {
      assert Line(c, h, c.lines[h]);
    }
  }

  // ---- push: chain_hash ----

  function Push(c: Chains, h: int, idx: nat, serial: nat): Chains
    requires Sized(c) && idx < SLOTS
  {
    Chains(c.free - {idx}, c.labels[idx := Label(h, serial)], ChainTable(c.table, h, idx),
           c.chained[LowestMatch(c.table, h, 0) := idx], Enqueue(c.lines, h, idx))
  }

  lemma PushOtherLine(c: Chains, h: int, idx: nat, serial: nat, g: int, q: seq<nat>)
    requires Sized(c) && idx < SLOTS && idx in c.free && h != EMPTY && g != h && Line(c, g, q)
    ensures Line(Push(c, h, idx, serial), g, q)
  {
    var holder := LowestMatch(c.table, h, 0);
    forall i | 0 <= i < |q| ensures q[i] != holder && q[i] != idx { }
  }

  lemma PushNewLine(c: Chains, h: int, idx: nat, serial: nat)
    requires Sized(c) && idx < SLOTS && Blank(c, idx) && 0 <= h < EMPTY
    requires LowestMatch(c.table, h, 0) == SLOTS
    ensures Line(Push(c, h, idx, serial), h, [idx])
  {
  }

  lemma PushOwnLine(c: Chains, h: int, idx: nat, serial: nat, q: seq<nat>)
    requires Sized(c) && idx < SLOTS && idx in c.free && Blank(c, idx) && Line(c, h, q)
    requires LowestMatch(c.table, h, 0) == q[|q| - 1]
    ensures Line(Push(c, h, idx, serial), h, q + [idx])
  {
    var d := Push(c, h, idx, serial);
    var p := q + [idx];
    forall i | 0 <= i < |p| - 1 ensures d.chained[p[i]] == p[i + 1] && d.table[p[i]] == EMPTY { }
  }

  lemma PushQueued(c: Chains, h: int, idx: nat, serial: nat, b: nat)
    requires Sized(c) && idx < SLOTS && b < SLOTS && (b == idx || Queued(c, b))
    ensures Queued(Push(c, h, idx, serial), b)
  {
    var q := Enqueue(c.lines, h, idx)[h];
    assert q[|q| - 1] == idx;
  }

  lemma PushBlank(c: Chains, h: int, idx: nat, serial: nat, b: nat)
    requires Sized(c) && idx < SLOTS && b < SLOTS && b != idx && h != EMPTY && Blank(c, b)
    ensures Blank(Push(c, h, idx, serial), b)
  {
  }

  /** Pushing appends the block to its own line and leaves every other line alone. */
  lemma PushRepresents(c: Chains, h: int, idx: nat, serial: nat)
    requires Represented(c) && idx < SLOTS && idx in c.free && 0 <= h < EMPTY
    ensures Represented(Push(c, h, idx, serial))
  {
    var d := Push(c, h, idx, serial);
    TableLookup(c, h);
    forall g | g in d.lines ensures Line(d, g, d.lines[g]) {
      if g != h {
        PushOtherLine(c, h, idx, serial, g, c.lines[g]);
      } else if h in c.lines {
        PushOwnLine(c, h, idx, serial, c.lines[h]);
      } else {
        PushNewLine(c, h, idx, serial);
        assert d.lines[h] == [idx];
      }
    }
    forall b | 0 <= b < SLOTS && b !in d.free ensures Queued(d, b) {
      PushQueued(c, h, idx, serial, b);
    }
    forall b | 0 <= b < SLOTS && b in d.free ensures Blank(d, b) {
      PushBlank(c, h, idx, serial, b);
    }
  }

  // ---- pop: the oldest block of a line finishes ----

  function Pop(c: Chains, id: nat): Chains
    requires Sized(c) && id < SLOTS
  {
    Chains(c.free + {id}, c.labels, c.table[id := EMPTY],
           if c.chained[id] >= 0 then c.chained[id := -1] else c.chained,
           Dequeue(c.lines, c.labels[id].hash))
  }

  lemma PopLine(c: Chains, id: nat, g: int, q: seq<nat>)
    requires Sized(c) && id < SLOTS && Line(c, g, q) && g != c.labels[id].hash
    ensures Line(Pop(c, id), g, q)
  {
    forall i | 0 <= i < |q| ensures q[i] != id { }
  }

  lemma PopOwnLine(c: Chains, id: nat, q: seq<nat>)
    requires Sized(c) && id < SLOTS && Line(c, c.labels[id].hash, q) && |q| > 1 && q[0] == id
    ensures Line(Pop(c, id), c.labels[id].hash, q[1..])
  {
    var p := q[1..];
    forall i | 0 <= i < |p| ensures p[i] == q[i + 1] && p[i] != id { }
  }

  lemma PopQueued(c: Chains, id: nat, b: nat)
    requires Represented(c) && id < SLOTS && b < SLOTS && b != id && b !in c.free
    requires id !in c.free && c.lines[c.labels[id].hash][..1] == [id]
    ensures Queued(Pop(c, id), b)
  {
    assert Queued(c, b);
    var g := c.labels[b].hash;
    var q := c.lines[g];
    var k :| 0 <= k < |q| && q[k] == b;
    if g == c.labels[id].hash {
      assert q[0] == q[..1][0] == id;
      assert q[1..][k - 1] == b;
    }
  }

  /** Popping the oldest block of a line removes it from the line and leaves every other
      line alone. */
  lemma PopRepresents(c: Chains, id: nat)
    requires Represented(c) && id < SLOTS && id !in c.free
    requires Queued(c, id) && c.lines[c.labels[id].hash][..1] == [id]
    ensures Represented(Pop(c, id))
  {
    var d := Pop(c, id);
    var h := c.labels[id].hash;
    var q := c.lines[h];
    assert q[0] == q[..1][0] == id;
    forall g | g in d.lines ensures Line(d, g, d.lines[g]) {
      assert Line(c, g, c.lines[g]);
      if g != h {
        PopLine(c, id, g, c.lines[g]);
      } else {
        PopOwnLine(c, id, q);
      }
    }
    forall b | 0 <= b < SLOTS && b !in d.free ensures Queued(d, b) {
      PopQueued(c, id, b);
    }
    forall b | 0 <= b < SLOTS && b in d.free ensures Blank(d, b) {
      if b != id {
        assert Blank(c, b);
      } else {
        assert Line(c, h, q);
        if |q| > 1 {
          assert c.chained[q[0]] == q[1];
        }
      }
    }
  }

  /** The successor that chained_block names is the new front of the line; without one the
      line is gone. */
  lemma PopSuccessor(c: Chains, id: nat)
    requires Represented(c) && id < SLOTS && Queued(c, id) && c.lines[c.labels[id].hash][..1] == [id]
    ensures var h := c.labels[id].hash;
            var d := Pop(c, id);
            if c.chained[id] >= 0 then h in d.lines && d.lines[h] != [] && d.lines[h][0] == c.chained[id] && c.chained[id] in c.lines[h][1..]
            else h !in d.lines
  {
    var h := c.labels[id].hash;
    var q := c.lines[h];
    assert Line(c, h, q);
    assert q[0] == q[..1][0] == id;
    if |q| > 1 {
      assert c.chained[q[0]] == q[1] == q[1..][0];
    }
  }
}
