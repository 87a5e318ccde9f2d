/** Of every line exactly the oldest block is ready or active, so blocks of one hash are
    serialised: no two of them can be active at once. */
module LineHeads {
  import opened QueueState
  import opened HashChains

  ghost predicate Head(c: Chains, b: int)
    requires Sized(c)
  {
    && 0 <= b < SLOTS && c.labels[b].hash in c.lines
    && c.lines[c.labels[b].hash] != [] && c.lines[c.labels[b].hash][0] == b
  }

  ghost predicate HeadsRun(c: Chains, ready: set<nat>, active: seq<int>)
    requires Sized(c)
  {
    && (forall b :: b in ready ==> Head(c, b) && b !in active)
    && (forall i :: 0 <= i < |active| && active[i] != EMPTY ==> Head(c, active[i]))
    && (forall i, j :: 0 <= i < j < |active| && active[i] != EMPTY ==> active[i] != active[j])
    && (forall b: nat :: b < SLOTS && Head(c, b) ==> b in ready || b in active)
  }

  lemma HeadIsQueued(c: Chains, b: nat)
    requires Represented(c) && Head(c, b)
    ensures b !in c.free && Queued(c, b) && c.lines[c.labels[b].hash][..1] == [b]
  {
    assert Line(c, c.labels[b].hash, c.lines[c.labels[b].hash]);
  }

  lemma InActive(active: seq<int>, i: nat, v: int, b: int)
    requires i < |active| && b in active && active[i] != b
    ensures b in active[i := v]
  {
    var k :| 0 <= k < |active| && active[k] == b;
    assert active[i := v][k] == b;
  }

  lemma StartHeads(c: Chains, ready: set<nat>, active: seq<int>, i: nat, b: nat)
    requires Sized(c) && HeadsRun(c, ready, active) && i < |active| && active[i] == EMPTY && b in ready
    ensures HeadsRun(c, ready - {b}, active[i := b])
  {
    var after := active[i := b];
    assert after[i] == b;
    forall d: nat | d < SLOTS && Head(c, d) ensures d in ready - {b} || d in after {
      if d in active {
        InActive(active, i, b, d);
      }
    }
  }

  lemma PushHeads(c: Chains, ready: set<nat>, active: seq<int>, h: int, idx: nat, serial: nat)
    requires Represented(c) && HeadsRun(c, ready, active)
    requires idx < SLOTS && idx in c.free && 0 <= h < EMPTY
    ensures HeadsRun(Push(c, h, idx, serial),
                     if LowestMatch(c.table, h, 0) == SLOTS then ready + {idx} else ready, active)
  {
    var d := Push(c, h, idx, serial);
    TableLookup(c, h);
    forall b: int | Head(c, b) ensures b != idx && Head(d, b) {
      HeadIsQueued(c, b);
    }
    forall b: nat | b < SLOTS && Head(d, b) && b != idx ensures Head(c, b) {
      PushedHead(c, h, idx, serial, b);
    }
    if h !in c.lines {
      assert d.lines[h] == [idx];
    } else {
      assert Line(c, h, c.lines[h]);
      assert d.lines[h][0] == c.lines[h][0];
    }
  }

  lemma PushedHead(c: Chains, h: int, idx: nat, serial: nat, b: nat)
    requires Represented(c) && idx < SLOTS && idx in c.free && b != idx
    requires Head(Push(c, h, idx, serial), b)
    ensures Head(c, b)
  {
    var d := Push(c, h, idx, serial);
    if c.labels[b].hash == h && h in c.lines {
      assert Line(c, h, c.lines[h]);
      assert d.lines[h][0] == c.lines[h][0];
    }
  }

  lemma PopHeads(c: Chains, ready: set<nat>, active: seq<int>, i: nat)
    requires Represented(c) && HeadsRun(c, ready, active) && i < |active| && active[i] != EMPTY
    ensures 0 <= active[i] < SLOTS
    ensures var id := active[i];
            HeadsRun(Pop(c, id), if c.chained[id] >= 0 then ready + {c.chained[id]} else ready, active[i := EMPTY])
  {
    var id := active[i];
    assert Head(c, id);
    HeadIsQueued(c, id);
    PopSuccessor(c, id);
    var d := Pop(c, id);
    var h := c.labels[id].hash;
    var after := active[i := EMPTY];
    assert Line(c, h, c.lines[h]);
    forall b: int | Head(c, b) && b != id ensures Head(d, b) && c.labels[b].hash != h { }
    forall b: nat | b < SLOTS && Head(d, b)
      ensures (c.chained[id] >= 0 && b == c.chained[id]) || (b in ready || b in after)
    {
      if c.labels[b].hash != h {
        assert Head(c, b);
        if b in active {
          InActive(active, i, EMPTY, b);
        }
      }
    }
    if c.chained[id] >= 0 {
      var next := c.chained[id];
      NextIsNewHead(c, id);
      assert next !in active;
    }
  }

  lemma NextIsNewHead(c: Chains, id: nat)
    requires Represented(c) && Head(c, id) && c.chained[id] >= 0
    ensures Head(Pop(c, id), c.chained[id]) && !Head(c, c.chained[id])
  {
    HeadIsQueued(c, id);
    PopSuccessor(c, id);
    var h := c.labels[id].hash;
    var q := c.lines[h];
    assert Line(c, h, q);
    var k :| 0 <= k < |q[1..]| && q[1..][k] == c.chained[id];
    assert q[k + 1] == c.chained[id] != q[0];
  }

  /** No two active slots hold blocks of the same hash. */
  lemma OneActivePerHash(c: Chains, ready: set<nat>, active: seq<int>, i: nat, j: nat)
    requires Sized(c) && HeadsRun(c, ready, active) && i < j < |active|
    requires active[i] != EMPTY && active[j] != EMPTY
    ensures 0 <= active[i] < SLOTS && 0 <= active[j] < SLOTS
    ensures c.labels[active[i]].hash != c.labels[active[j]].hash
  {
    assert Head(c, active[i]) && Head(c, active[j]);
  }
}
