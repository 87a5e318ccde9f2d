/** The scheduler of old/queue.c as it is written: arrays and masks updated in place. Each
    method is specified by the step of QueueState and Scheduler that it carries out. */
module BlockQueue {
  import opened Masks
  import opened QueueState
  import opened Scheduler
  import HashVectors
  import TriangleRing

  class Queue {
    const triangles: array<Tri>
    const blocks: array<Block>
    const chainedBlock: array<int>
    var nextRead: nat
    var nextWrite: nat
    var free: set<nat>
    var ready: set<nat>
    var lastStarted: nat
    var lastAdded: nat
    var active: seq<int>
    var hash0: HashVectors.Vector
    var hash1: HashVectors.Vector
    var hash2: HashVectors.Vector
    var hash3: HashVectors.Vector
    var busy: int
    ghost var log: History

    function Table(): HashVectors.Table
      reads this
    {
      HashVectors.Table(hash0, hash1, hash2, hash3)
    }

    /** The table by slots. */
    function Entries(): (r: seq<int>)
      reads this
      ensures |r| == SLOTS
    {
      HashVectors.Entries(Table())
    }

    ghost function Abs(): State
      reads this, triangles, blocks, chainedBlock
    {
      State(triangles[..], blocks[..], nextRead, nextWrite, free, ready, lastStarted, lastAdded,
            active, Entries(), chainedBlock[..], busy, log)
    }

    constructor (n: nat)
      requires 1 <= n <= MAX_ACTIVE
      ensures Abs() == Init(n)
      ensures fresh(triangles) && fresh(blocks) && fresh(chainedBlock)
    {
      triangles := new Tri[TRIS](t => Tri(0, false, []));
      blocks := new Block[SLOTS](b => Block(false, 0, 0));
      chainedBlock := new int[SLOTS + 1](b => -1);
      nextRead, nextWrite := 0, 0;
      free, ready := Below(SLOTS), {};
      lastStarted, lastAdded := 0, 0;
      active := seq(n, i => EMPTY);
      hash0, hash1 := HashVectors.Splat(EMPTY), HashVectors.Splat(EMPTY);
      hash2, hash3 := HashVectors.Splat(EMPTY), HashVectors.Splat(EMPTY);
      busy := 0;
      log := History([], [], [], [], [], seq(SLOTS, b => Label(EMPTY, 0)), map[]);
      new;
      HashVectors.EmptyEntries();
      hide HashVectors.Entries, HashVectors.Splat, Below;
      assert Abs() == Init(n);
    }

    /** The handler of a block: it stalls as often as its job says, then finishes and drops the
        block's reference to its triangle. */
    method RunHandler(id: nat) returns (finished: bool)
      requires Shape(Abs()) && id < SLOTS
      modifies triangles, blocks
      ensures finished == (old(blocks[id].stalls) == 0)
      ensures finished ==> blocks[..] == old(blocks[..])
      ensures finished ==> triangles[..] == old(triangles[..])[old(blocks[id].tri) :=
                old(triangles[blocks[id].tri]).(count := old(triangles[blocks[id].tri].count) - 1)]
      ensures !finished ==> triangles[..] == old(triangles[..])
      ensures !finished ==> blocks[..] == old(blocks[..])[id :=
                old(blocks[id]).(stalls := old(blocks[id].stalls) - 1, process := true)]
    {
      assert blocks[..][id] == blocks[id];
      if blocks[id].stalls > 0 {
        blocks[id] := blocks[id].(stalls := blocks[id].stalls - 1, process := true);
        return false;
      }
      var t := blocks[id].tri;
      triangles[t] := triangles[t].(count := triangles[t].count - 1);
      return true;
    }

    method StartBlock(i: nat, b: nat, ghost handed: bool)
      requires Shape(Abs()) && i < |active| && b < SLOTS
      modifies this
      ensures Abs() == Start(old(Abs()), i, b, handed)
    {
      ghost var tag := log.labels[b];
      log := log.(starts := log.starts + [Choice(b, ready, handed)]);
      ready := ready - {b};
      lastStarted := b;
      active := active[i := b];
      busy := busy + 1;
      log := log.(events := log.events + [Started(tag.hash, tag.serial)]);
    }

    method StartNextBlock(i: nat)
      requires Sane(Abs()) && i < |active| && active[i] == EMPTY
      modifies this
      ensures Abs() == StartNext(old(Abs()), i)
    {
      if ready != {} {
        ghost var some :| some in ready;
        assert some < SLOTS;
        var bit1 := HighestBelow(ready, SLOTS);
        var bit2 := HighestBelow(ready, lastStarted);
        var nextBit := if bit2 < 0 then bit1 else bit2;
        assert nextBit == Pick(ready, lastStarted);
        StartBlock(i, nextBit, false);
      }
    }

    /** The bit of the slot is rotated into place in the word of its vector, and selects all-ones. */
    method ClearHash(idx: nat)
      requires idx < SLOTS
      modifies this`hash0, this`hash1, this`hash2, this`hash3
      ensures Entries() == old(Entries())[idx := EMPTY]
    {
      ghost var was := Table();
      var empty := HashVectors.Splat(EMPTY);
      hash0 := HashVectors.Select(hash0, empty, HashVectors.SlotBit(0, idx));
      hash1 := HashVectors.Select(hash1, empty, HashVectors.SlotBit(8, idx));
      hash2 := HashVectors.Select(hash2, empty, HashVectors.SlotBit(16, idx));
      hash3 := HashVectors.Select(hash3, empty, HashVectors.SlotBit(24, idx));
      HashVectors.ClearIsUpdate(was, idx);
    }

    /** Enters a block under its hash; the answer is whether nothing with that hash was queued. The
        masks of equal entries wipe these, and gathered into a word give the slot that had the hash. */
    method ChainHash(hash: int, idx: nat) returns (chain: bool)
      requires chainedBlock.Length == SLOTS + 1 && idx < SLOTS
      modifies this`hash0, this`hash1, this`hash2, this`hash3, chainedBlock
      ensures Entries() == ChainTable(old(Entries()), hash, idx)
      ensures chainedBlock[..] == old(chainedBlock[..])[LowestMatch(old(Entries()), hash, 0) := idx]
      ensures chain == (LowestMatch(old(Entries()), hash, 0) == SLOTS)
    {
      hide HashVectors.Select, HashVectors.Or, HashVectors.Equal, HashVectors.SlotBit, HashVectors.MoveByte, HashVectors.Gather;
      hide LowestMatch, ChainTable, HashVectors.Entries;
      ghost var was := Table();
      var compare := HashVectors.Splat(hash);
      var mask0, mask1 := HashVectors.Equal(compare, hash0), HashVectors.Equal(compare, hash1);
      var mask2, mask3 := HashVectors.Equal(compare, hash2), HashVectors.Equal(compare, hash3);
      hash0 := HashVectors.Select(HashVectors.Or(hash0, mask0), compare, HashVectors.SlotBit(0, idx));
      hash1 := HashVectors.Select(HashVectors.Or(hash1, mask1), compare, HashVectors.SlotBit(8, idx));
      hash2 := HashVectors.Select(HashVectors.Or(hash2, mask2), compare, HashVectors.SlotBit(16, idx));
      hash3 := HashVectors.Select(HashVectors.Or(hash3, mask3), compare, HashVectors.SlotBit(24, idx));
      var low := HashVectors.MoveByte(HashVectors.Gather(mask0), 3) + HashVectors.MoveByte(HashVectors.Gather(mask1), 2);
      var high := HashVectors.MoveByte(HashVectors.Gather(mask2), 1) + HashVectors.MoveByte(HashVectors.Gather(mask3), 0);
      var holder := HashVectors.CountLeadingZeros(low + high, 0);
      HashVectors.ChainIsChainTable(was, hash, idx);
      HashVectors.HolderIsLowestMatch(was, hash);
      chainedBlock[holder] := idx;
      chain := holder == 32;
    }

    /** Takes a block out of the table and makes the block chained to it ready, if there is one. */
    method Unchain(id: nat) returns (nextBit: int)
      requires chainedBlock.Length == SLOTS + 1 && id < SLOTS && -1 <= chainedBlock[id] < SLOTS
      modifies this`hash0, this`hash1, this`hash2, this`hash3, this`ready, chainedBlock
      ensures nextBit == old(chainedBlock[id])
      ensures Abs() == old(Abs()).(
                table := old(Entries())[id := EMPTY],
                chained := if nextBit >= 0 then old(chainedBlock[..])[id := -1] else old(chainedBlock[..]),
                ready := if nextBit >= 0 then old(ready) + {nextBit} else old(ready))
    {
      hide HashVectors.Entries;
      nextBit := chainedBlock[id];
      ClearHash(id);
      if nextBit >= 0 {
        chainedBlock[id] := -1;
        ready := ready + {nextBit};
      }
    }

    /** The block in active slot i is done: its slot is free, and the active slot idle. */
    method ReleaseSlot(i: nat)
      requires i < |active| && 0 <= active[i] < SLOTS && blocks.Length == SLOTS && |log.labels| == SLOTS
      modifies this`busy, this`free, this`active, this`log, blocks
      ensures var s := old(Abs());
              var id := s.active[i];
              var tag := s.log.labels[id];
              Abs() == s.(blocks := s.blocks[id := s.blocks[id].(process := false)], busy := s.busy - 1,
                          free := s.free + {id}, active := s.active[i := EMPTY],
                          log := s.log.(events := s.log.events + [Finished(tag.hash, tag.serial)],
                                        lines := Dequeue(s.log.lines, tag.hash)))
    {
      hide Dequeue, HashVectors.Entries;
      var id := active[i];
      busy := busy - 1;
      blocks[id] := blocks[id].(process := false);
      free := free + {id};
      active := active[i := EMPTY];
      log := log.(events := log.events + [Finished(log.labels[id].hash, log.labels[id].serial)],
                  lines := Dequeue(log.lines, log.labels[id].hash));
    }

    /** The bookkeeping after the handler of active slot i answered that it has finished. */
    method FinishBlock(i: nat, ghost before: State) returns (nextBit: int)
      requires Shape(before) && i < |before.active| && before.active[i] != EMPTY
      requires var id := before.active[i]; var t := before.blocks[id].tri;
               Abs() == before.(tris := before.tris[t := before.tris[t].(count := before.tris[t].count - 1)])
      modifies this, blocks, chainedBlock
      ensures Abs() == Finish(before, i) && nextBit == before.chained[before.active[i]]
    {
      hide Dequeue, HashVectors.Entries;
      var id := active[i];
      assert chainedBlock[..][id] == chainedBlock[id];
      ReleaseSlot(i);
      nextBit := Unchain(id);
    }

    /** One active slot whose DMA tag has completed. */
    method VisitSlot(i: nat)
      requires Sane(Abs()) && i < |active|
      modifies this, triangles, blocks, chainedBlock
      ensures Abs() == Visit(old(Abs()), i)
    {
      ghost var before := Abs();
      if active[i] == EMPTY {
        StartNextBlock(i);
      } else {
        assert blocks[..][active[i]] == blocks[active[i]];
        var finished := RunHandler(active[i]);
        if finished {
          var nextBit := FinishBlock(i, before);
          if nextBit >= 0 {
            StartBlock(i, nextBit, true);
          } else {
            StartNextBlock(i);
          }
        } else {
          assert Abs() == Stall(before, i);
        }
      }
    }

    /** A triangle's producer fills in one block and clears itself after its last one. */
    method RunProducer(t: nat, b: nat) returns (hash: int)
      requires Shape(Abs()) && t < TRIS && b < SLOTS && triangles[t].jobs != []
      modifies triangles, blocks
      ensures var tri := old(triangles[t]);
              var last := |tri.jobs| == 1;
              && hash == tri.jobs[0].hash
              && blocks[..] == old(blocks[..])[b := Block(true, t, tri.jobs[0].stalls)]
              && triangles[..] == old(triangles[..])[t := Tri(if last then tri.count else tri.count + 1, !last, tri.jobs[1..])]
    {
      var tri := triangles[t];
      var job := tri.jobs[0];
      blocks[b] := Block(true, t, job.stalls);
      triangles[t] := Tri(tri.count + 1, true, tri.jobs[1..]);
      if triangles[t].jobs == [] {
        triangles[t] := Tri(triangles[t].count - 1, false, []);
      }
      hash := job.hash;
    }

    method PickFree() returns (nextBit: nat)
      requires Shape(Abs()) && free != {}
      ensures nextBit == Pick(free, lastAdded) && nextBit in free && nextBit < SLOTS
    {
      ghost var some :| some in free;
      assert some < SLOTS;
      var bit1 := HighestBelow(free, SLOTS);
      var bit2 := HighestBelow(free, lastAdded);
      nextBit := if bit2 < 0 then bit1 else bit2;
    }

    /** A block that was free is entered under its hash, and is ready if it is alone there. */
    method QueueBlock(hash: int, b: nat)
      requires chainedBlock.Length == SLOTS + 1 && b < SLOTS
      modifies this`hash0, this`hash1, this`hash2, this`hash3, this`ready, this`lastAdded, this`free, chainedBlock
      ensures Abs() == old(Abs()).(
                table := ChainTable(old(Entries()), hash, b),
                chained := old(chainedBlock[..])[LowestMatch(old(Entries()), hash, 0) := b],
                ready := if LowestMatch(old(Entries()), hash, 0) == SLOTS then old(ready) + {b} else old(ready),
                lastAdded := b,
                free := old(free) - {b})
    {
      hide HashVectors.Entries, LowestMatch, ChainTable;
      var chain := ChainHash(hash, b);
      if chain {
        ready := ready + {b};
      }
      lastAdded := b;
      free := free - {b};
    }

    /** The triangle being read produces one block. */
    method ProduceBlock()
      requires Sane(Abs()) && free != {} && triangles[nextRead].produce
      modifies this, triangles, blocks, chainedBlock
      ensures triangles.Length == TRIS && old(triangles[nextRead].jobs) != []
      ensures Abs() == Produce(old(Abs())) && log.generated == old(log.generated)
    {
      hide LowestMatch, ChainTable, Pick, Enqueue;
      ghost var before := Abs();
      assert triangles[..][nextRead] == triangles[nextRead];
      var nextBit := PickFree();
      ghost var job := triangles[nextRead].jobs[0];
      log := log.(made := log.made + [job],
                  places := log.places + [Choice(nextBit, free, false)],
                  labels := log.labels[nextBit := Label(job.hash, |log.made|)],
                  lines := Enqueue(log.lines, job.hash, nextBit));
      var hash := RunProducer(nextRead, nextBit);
      QueueBlock(hash, nextBit);
      assert triangles[..][nextRead] == triangles[nextRead];
      if !triangles[nextRead].produce {
        nextRead := (nextRead + 1) % TRIS;
        busy := busy - 1;
      }
    }

    method ScanSlots(completed: set<nat>)
      requires Sane(Abs())
      modifies this, triangles, blocks, chainedBlock
      ensures Sane(Abs()) && Abs() == Scan(old(Abs()), completed, 0)
    {
      hide Visit, Sane;
      ghost var first := Abs();
      var i := 0;
      while i < |active|
        invariant i <= |active| == |first.active| && Sane(Abs())
        invariant Scan(Abs(), completed, i) == Scan(first, completed, 0)
      {
        if i in completed {
          VisitSlot(i);
        }
        i := i + 1;
      }
    }

    method ProduceBlocks()
      requires Sane(Abs())
      modifies this, triangles, blocks, chainedBlock
      ensures Sane(Abs()) && Abs() == ProduceAll(old(Abs()))
    {
      hide Produce;
      ghost var first := Abs();
      while free != {} && triangles[nextRead].produce
        invariant Sane(Abs()) && ProduceAll(Abs()) == ProduceAll(first)
        decreases |free|
      {
        ghost var before := Abs();
        assert triangles[..][nextRead] == triangles[nextRead];
        ProduceSane(before);
        ProduceBlock();
      }
      assert triangles[..][nextRead] == triangles[nextRead];
    }

    /** The generator has the triangles `arrivals` to offer and hands over the first `taken`. */
    method GenerateTriangles(arrivals: seq<seq<Job>>) returns (taken: nat)
      requires Sane(Abs()) && Triangles(arrivals)
      modifies this, triangles
      ensures Sane(Abs()) && Abs() == GenerateAll(old(Abs()), arrivals)
      ensures taken <= |arrivals| && log.generated == old(log.generated) + Flatten(arrivals[..taken])
      ensures taken == |arrivals| || Abs().tris[nextWrite].count != 0
    {
      hide Generate;
      ghost var first := Abs();
      assert arrivals[0..] == arrivals && arrivals[..0] == [];
      taken := 0;
      while triangles[nextWrite].count == 0 && taken < |arrivals|
        invariant taken <= |arrivals| && Sane(Abs())
        invariant GenerateAll(Abs(), arrivals[taken..]) == GenerateAll(first, arrivals)
        invariant log.generated == old(log.generated) + Flatten(arrivals[..taken])
      {
        assert triangles[..][nextWrite] == triangles[nextWrite];
        assert arrivals[taken..][1..] == arrivals[taken + 1..];
        assert arrivals[..taken + 1][..taken] == arrivals[..taken];
        GenerateTriangle(arrivals[taken]);
        taken := taken + 1;
      }
      assert triangles[..][nextWrite] == triangles[nextWrite];
    }

    method GenerateTriangle(jobs: seq<Job>)
      requires Sane(Abs()) && jobs != []
      modifies this, triangles
      ensures Sane(Abs()) && Abs() == Generate(old(Abs()), jobs)
      ensures log.generated == old(log.generated) + jobs
    {
      triangles[nextWrite] := Tri(1, true, jobs);
      nextWrite := (nextWrite + 1) % TRIS;
      busy := busy + 1;
      log := log.(generated := log.generated + jobs);
    }

    /** process_queue: the tags in `completed` have completed. */
    method ProcessQueue(completed: set<nat>, arrivals: seq<seq<Job>>) returns (taken: nat)
      requires Sane(Abs()) && Triangles(arrivals)
      modifies this, triangles, blocks, chainedBlock
      ensures Sane(Abs()) && Abs() == Scheduler.ProcessQueue(old(Abs()), completed, arrivals)
      ensures taken <= |arrivals|
      ensures taken == |arrivals| || Abs().tris[nextWrite].count != 0
    {
      hide Scan, ProduceAll, GenerateAll, Sane;
      ScanSlots(completed);
      ProduceBlocks();
      taken := GenerateTriangles(arrivals);
    }

    method HasFinished() returns (r: bool)
      ensures r == (Abs().busy == 0)
    {
      r := busy == 0;
    }
  }

  lemma ProduceSane(s: State)
    requires Sane(s) && s.free != {} && s.tris[s.nextRead].jobs != []
    ensures Sane(Produce(s)) && |Produce(s).free| < |s.free|
  {
    TriangleRing.ProduceShape(s);
  }

  function Flatten(arrivals: seq<seq<Job>>): seq<Job> {
    if arrivals == [] then []
    else Flatten(arrivals[..|arrivals| - 1]) + arrivals[|arrivals| - 1]
  }
}
