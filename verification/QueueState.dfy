/** The state of the block scheduler and each thing that process_queue does to it.
    A 32-bit mask is the set of its set bit positions; `EMPTY` is the all-ones
    halfword that marks an unused hash entry and an idle active slot. */
module QueueState {
  import opened Masks

  const TRIS: nat := 10
  const SLOTS: nat := 32
  const MAX_ACTIVE: nat := 8
  const EMPTY: int := 0xFFFF

  /** What a triangle's producer will put into its next block: the hash it returns, and how
      often the block's handler will stall before it finishes. */
  datatype Job = Job(hash: int, stalls: nat)

  /** A slot of the triangle ring: `produce` stands for a non-null producer, `jobs` for the
      blocks that producer still has to hand out. */
  datatype Tri = Tri(count: int, produce: bool, jobs: seq<Job>)

  /** A queued block: `process` stands for a non-null handler. */
  datatype Block = Block(process: bool, tri: nat, stalls: nat)

  datatype Event = Started(hash: int, serial: nat) | Finished(hash: int, serial: nat)

  datatype Label = Label(hash: int, serial: nat)

  /** A slot that was taken, and the slots there were at that moment; `handed` if it was not picked
      from them but is the successor of the block that has just finished. */
  datatype Choice = Choice(slot: nat, among: set<nat>, handed: bool)

  /** History, which the program does not store: the jobs of all generated triangles in
      order, the blocks produced so far (a block's serial is its place in `made`) and the slots
      that were taken for them, what started and finished, the slots that started, which block
      each slot holds, and for every hash the slots of its unfinished blocks, oldest first. */
  datatype History = History(
    generated: seq<Job>,
    made: seq<Job>,
    places: seq<Choice>,
    events: seq<Event>,
    starts: seq<Choice>,
    labels: seq<Label>,
    lines: map<int, seq<nat>>)

  datatype State = State(
    tris: seq<Tri>,
    blocks: seq<Block>,
    nextRead: nat,
    nextWrite: nat,
    free: set<nat>,
    ready: set<nat>,
    lastStarted: nat,
    lastAdded: nat,
    active: seq<int>,
    table: seq<int>,
    chained: seq<int>,
    busy: int,
    log: History)

  /** The sizes and index ranges that C leaves to the types and constants. */
  ghost predicate Shape(s: State) {
    && |s.tris| == TRIS && |s.blocks| == SLOTS && |s.table| == SLOTS && |s.chained| == SLOTS + 1
    && 1 <= |s.active| <= MAX_ACTIVE && |s.log.labels| == SLOTS
    && s.nextRead < TRIS && s.nextWrite < TRIS && s.lastStarted < SLOTS && s.lastAdded < SLOTS
    && (forall i :: 0 <= i < |s.active| ==> s.active[i] == EMPTY || 0 <= s.active[i] < SLOTS)
    && (forall b :: 0 <= b < SLOTS ==> s.blocks[b].tri < TRIS)
    && (forall b :: 0 <= b <= SLOTS ==> -1 <= s.chained[b] < SLOTS)
    && (forall b :: b in s.free ==> b < SLOTS)
    && (forall b :: b in s.ready ==> b < SLOTS)
  }

  /** The state that static initialisation and init_queue leave, with n active slots. */
  function Init(n: nat): State
    requires 1 <= n <= MAX_ACTIVE
  {
    State(
      seq(TRIS, t => Tri(0, false, [])), seq(SLOTS, b => Block(false, 0, 0)),
      0, 0, Below(SLOTS), {}, 0, 0,
      seq(n, i => EMPTY), seq(SLOTS, b => EMPTY), seq(SLOTS + 1, b => -1), 0,
      History([], [], [], [], [], seq(SLOTS, b => Label(EMPTY, 0)), map[]))
  }

  // ---- first_bit and the round-robin picker ----

  /** The picker of process_queue: going down from `last`, then round from the top. */
  function Pick(mask: set<nat>, last: nat): (r: int)
    requires last < SLOTS
    ensures (exists b :: b in mask && b < SLOTS) <==> r >= 0
    ensures r >= 0 ==> r < SLOTS && r in mask
    ensures r >= 0 ==> forall j: nat :: j in mask && j < SLOTS ==> Turn(last, r) <= Turn(last, j)
  {
    var below := HighestBelow(mask, last);
    if below < 0 then HighestBelow(mask, SLOTS) else below
  }

  /** How many places a cyclic walk downwards from `last` needs to reach `b`. */
  function Turn(last: nat, b: nat): nat
    requires last < SLOTS && b < SLOTS
  {
    if b < last then last - b else last + SLOTS - b
  }

  // ---- the hash table ----

  /** The lowest entry from `k` on that holds `hash`, or 32: count-leading-zeros of the
      gathered comparison masks. */
  function LowestMatch(table: seq<int>, hash: int, k: nat): (r: nat)
    requires |table| == SLOTS && k <= SLOTS
    ensures k <= r <= SLOTS
    ensures r < SLOTS ==> table[r] == hash
    ensures forall j :: k <= j < r ==> table[j] != hash
    decreases SLOTS - k
  {
    if k == SLOTS then SLOTS else if table[k] == hash then k else LowestMatch(table, hash, k + 1)
  }

  /** The table after chain_hash: matching entries are wiped and `idx` holds the hash. */
  function ChainTable(table: seq<int>, hash: int, idx: nat): (r: seq<int>)
    requires |table| == SLOTS && idx < SLOTS
    ensures |r| == SLOTS
  {
    seq(SLOTS, k requires 0 <= k < SLOTS =>
      if k == idx then hash else if table[k] == hash then EMPTY else table[k])
  }

  // ---- lines of unfinished blocks, one per hash ----

  function Enqueue(lines: map<int, seq<nat>>, h: int, b: nat): map<int, seq<nat>> {
    lines[h := (if h in lines then lines[h] else []) + [b]]
  }

  function Dequeue(lines: map<int, seq<nat>>, h: int): map<int, seq<nat>> {
    if h in lines && |lines[h]| > 1 then lines[h := lines[h][1..]] else lines - {h}
  }

  // ---- what process_queue does, one thing at a time ----

  /** The handler of the block in active slot i stalls. */
  function Stall(s: State, i: nat): State
    requires Shape(s) && i < |s.active| && s.active[i] != EMPTY
    requires s.blocks[s.active[i]].stalls > 0
  {
    var id := s.active[i];
    s.(blocks := s.blocks[id := s.blocks[id].(stalls := s.blocks[id].stalls - 1, process := true)])
  }

  /** The handler of the block in active slot i finishes; its successor becomes ready. */
  function Finish(s: State, i: nat): State
    requires Shape(s) && i < |s.active| && s.active[i] != EMPTY
  {
    var id := s.active[i];
    var t := s.blocks[id].tri;
    var next := s.chained[id];
    var tag := s.log.labels[id];
    s.(tris := s.tris[t := s.tris[t].(count := s.tris[t].count - 1)],
       blocks := s.blocks[id := s.blocks[id].(process := false)],
       busy := s.busy - 1,
       free := s.free + {id},
       active := s.active[i := EMPTY],
       table := s.table[id := EMPTY],
       chained := if next >= 0 then s.chained[id := -1] else s.chained,
       ready := if next >= 0 then s.ready + {next} else s.ready,
       log := s.log.(events := s.log.events + [Finished(tag.hash, tag.serial)],
                     lines := Dequeue(s.log.lines, tag.hash)))
  }

  /** Block b goes into the idle active slot i, picked from the ready ones or handed over to. */
  function Start(s: State, i: nat, b: nat, handed: bool): State
    requires Shape(s) && i < |s.active| && b < SLOTS
  {
    var tag := s.log.labels[b];
    s.(ready := s.ready - {b},
       lastStarted := b,
       active := s.active[i := b],
       busy := s.busy + 1,
       log := s.log.(events := s.log.events + [Started(tag.hash, tag.serial)],
                     starts := s.log.starts + [Choice(b, s.ready, handed)]))
  }

  /** The triangle being read produces its next block into the slot that is picked. */
  function Produce(s: State): State
    requires Shape(s) && s.free != {} && s.tris[s.nextRead].jobs != []
  {
    var idx := Pick(s.free, s.lastAdded);
    var tri := s.tris[s.nextRead];
    var job := tri.jobs[0];
    var holder := LowestMatch(s.table, job.hash, 0);
    var last := |tri.jobs| == 1;
    assert idx >= 0 by { var b :| b in s.free; assert b < SLOTS; }
    s.(tris := s.tris[s.nextRead := Tri(if last then tri.count else tri.count + 1, !last, tri.jobs[1..])],
       blocks := s.blocks[idx := Block(true, s.nextRead, job.stalls)],
       table := ChainTable(s.table, job.hash, idx),
       chained := s.chained[holder := idx],
       ready := if holder == SLOTS then s.ready + {idx} else s.ready,
       lastAdded := idx,
       free := s.free - {idx},
       nextRead := if last then (s.nextRead + 1) % TRIS else s.nextRead,
       busy := if last then s.busy - 1 else s.busy,
       log := s.log.(made := s.log.made + [job],
                     places := s.log.places + [Choice(idx, s.free, false)],
                     labels := s.log.labels[idx := Label(job.hash, |s.log.made|)],
                     lines := Enqueue(s.log.lines, job.hash, idx)))
  }

  /** The generator puts a new triangle into the slot being written. */
  function Generate(s: State, jobs: seq<Job>): State
    requires Shape(s)
  {
    s.(tris := s.tris[s.nextWrite := Tri(1, true, jobs)],
       nextWrite := (s.nextWrite + 1) % TRIS,
       busy := s.busy + 1,
       log := s.log.(generated := s.log.generated + jobs))
  }
}
