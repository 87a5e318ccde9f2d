# A model of spugl's protocols and rasteriser

spugl is an OpenGL renderer that runs on the processing elements of the PlayStation 3 without
touching its graphics chip. This project models the parts of it where correctness depends on order,
on state that is changed in place, or on arithmetic done in steps, and proves what they are for.

* **Block scheduler** (`QueueState`, `HashChains`, `LineHeads`, `SerialOrder`, `TriangleRing`,
  `Scheduler`, `SchedulerRuns`, `SchedulerProgress`, `Turns`, `HandOvers`, `CallEffects`,
  `UnsetHash`, `UnsetHashExample`, `HashVectors`, `BlockQueue`). Triangles are cut into blocks of 32
  by 32 pixels; 32 block slots are free, ready, active or waiting, and a hash table with chains
  keeps blocks of one tile in order. `QueueState` has the steps as functions, `BlockQueue` the
  original's loops over masks, arrays and the four vectors of the hash table (`HashVectors`), proved
  to take exactly these steps. What a run does is stated on a log of what was generated, produced,
  started and finished.
* **Command FIFO** (`FifoFormat`, `CommandFifo`, `FifoRuns`, `FifoRefusals`, `FifoCost`,
  `FifoProgress`, `FifoWriter`). A client appends commands to shared memory; the SPU reads them
  through a window of 1024 bytes and stores its read pointer conditionally into the line that also
  holds the client's write pointer. The steps of the two sides interleave freely.
* **Buffer lifetime** (`BufferLifetime`, `BufferKinds`, `SpuRounds`, `Connection`, `ConnectionRuns`,
  `ConnectionKinds`, `ConnectionFlushes`, `ConnectionNotices`). Usage counts are changed by
  load-reserved and store-conditional from the server thread and from the SPU; the server frees what
  has been disposed of and is not in use. `BufferLifetime` interleaves single memory accesses;
  `Connection` has the server's requests as they run over the list of allocations.
* **Texture cache and texture fill** (`TextureCache`, `TextureRuns`, `CyclicReplacement`,
  `Interpolation`, `Attributes`, `TextureFill`, `TextureStalls`, `TextureUnit`, `DrawnTile`).
  Sixteen cache slots with loads in flight, and a loop over the 256 quads of a tile that can give up
  at any quad and take up there again.
* **Rasteriser** (`EdgeWeights`, `BlockProducer`, `Rasteriser`, `MaskFill`, `VertexAssembly`,
  `VertexRuns`). From vertices to triangles, from a triangle to its blocks, and from a block to its
  pixels.
* **Tile buffer** (`TileMemory`, `ActiveTile`) and the **Hilbert curve** (`Hilbert`).

`Sums`, `Masks` and `Division` hold small facts that several of these need.

How the model reads the source:

* A bit mask is the set of its bit positions. Vector registers that are compared or selected as a
  whole are sequences. Words that wrap around do so explicitly where it matters: in the mask shader,
  the transfer lists and the producer's counters.
* The number of active slots of the scheduler is a parameter from 1 to 8; the source sets it to 1. A
  block's stalls are a finite number that comes with the block. Which DMA tags have completed and
  which triangles arrive is arbitrary at every call.
* Some fields are history, which the original does not have and no step depends on: `log` in the
  scheduler, `published`, `done` and `stored` in the FIFO, `held`, `drops`, `unmaps`, `serial`,
  `unmapped`, `made` and `asked` where buffers live, and the tallies of `ConnectionFlushes` and
  `ConnectionNotices`.
* Interpolation and edge weights use exact arithmetic, in which a value is negative exactly if it is
  less than nought. The choice of texture blocks and the filtering of pixels are arbitrary functions
  of the interpolated values and of the contents of the four cache slots.
* FIFO memory is words by byte address; words never written read as nought. Pointers are multiples
  of four and do not reach 2^32. A command handler may refuse a command at any time. A jump and the
  write pointer behind its target become visible together, and the client does not write into
  commands that have not been read.

Where the code does not do what it seems to be meant to do, the model follows the code, and the
exact condition is proved:

* A block whose hash is 0xffff looks like an empty table entry. It is chained to the lowest slot
  without an entry and may never run: `UnsetHash.NewBlockIsPlaced` and
  `UnsetHash.UnsetHashDeadlocks`. If that slot is in use, a waiting block of another hash loses its
  turn, for good (`UnsetHash.UnsetHashTakesATurn`, `UnsetHash.LostForGood`; reached in
  `UnsetHashExample.OrdinaryBlockLost`); if it is free, no other block is touched. Until the first
  such block everything is as it should be (`UnsetHash.SerialUntilUnset`). The producer returns that
  number exactly when the next place is column 255 of row 255
  (`BlockProducer.UnsetHashIsLastPlace`).
* `triangleProducer` returns the place of the block after the one it fills in
  (`BlockProducer.BlocksInOrder`), so the scheduler's order is per returned number, not per tile.
* A block that finishes hands its active slot to its successor without asking the picker, so a ready
  block can be passed over for ever (`HandOvers.PassedOverForEver`). Picks alone pass it over at
  most 31 times between two such starts (`Turns.PassedOverAtMost`).
* `has_finished` leaves the ready blocks out: `SchedulerRuns.WhenFinishedMeansDone` and
  `SchedulerRuns.FinishedTooEarly`.
* A command that does not fit into the window makes the SPU refill it for ever. There are two ways
  not to fit (`FifoCost.RefillSuffices`): more than 1024 bytes from the start of its 128-byte line
  to its end, which takes more than 224 words of payload; and a write_ptr that pointed into the
  middle of the command when the SPU read it, which takes a jump into a command that is not read
  yet. `FifoCost.EndlessRefill` has what follows, `FifoCost.LongCommandStops` and
  `FifoCost.JumpIntoCommandStops` have runs that get there. Clients whose write_ptr stays off the
  middle of unread commands meet the first only (`FifoCost.RefillSufficesInTidyRuns`).
* A client that brings write_ptr round to the start of an unread command makes the queue look empty
  (`FifoProgress.ReturnLooksEmpty`). If one does not, and keeps write_ptr off the middle of commands
  and payloads to 224 words, everything published is completed
  (`FifoProgress.EverythingIsCompleted`).
* When the DMA queue is full, a texture slot is tagged without having been loaded. The cache is
  right after the load if and only if the queue had room (`TextureRuns.FullQueueLies`, and
  `TextureRuns.FullQueueExample` for the first load of all). `TextureCache.QueueHasRoom` is that
  condition, and the results about runs, stalls and tiles are for loads that meet it.
* A flush forgets that the buffer has to be stored but not which tile it holds:
  `ActiveTile.SecondFlush`.
* The table leads triangle strips, quad strips and polygons into the states of other primitives;
  `VertexRuns` says for which vertices they come out right all the same. `GL_POINTS` are assembled
  but nothing draws them, and a nested glBegin raises its error and then begins:
  `VertexAssembly.Feed`, `VertexAssembly.Begin`.

## Model

| member | source | states |
|---|---|---|
| `QueueState.Pick` | old/queue.c:152-155 | the picker returns a member of any non-empty mask: the first one going down from the last pick and then round from the top; -1 exactly for an empty mask |
| `QueueState.LowestMatch` | old/queue.c:60-81 | the comparison of all 32 table entries gives the lowest slot that holds the hash, or 32 if none does |
| `HashChains.TableLookup` | old/queue.c:74-92 | the lookup finds the last block of the waiting line of that hash, and answers 32 exactly when the line is empty |
| `HashChains.PushRepresents` | old/queue.c:56-92 | chaining a block appends it to the line of its own hash and leaves all other lines alone |
| `HashChains.PopRepresents` | old/queue.c:136-146 | finishing the first block of a line takes it off the line and leaves all other lines alone |
| `HashChains.PopSuccessor` | old/queue.c:139-146 | the slot that chained_block names is the new front of the line; there is none exactly when the line is gone |
| `LineHeads.StartHeads` | old/queue.c:151-163 | starting a ready block keeps: the ready and active slots together are exactly the fronts of the lines |
| `LineHeads.PushHeads` | old/queue.c:186-189 | a new block is ready at once exactly if it is the front of its line |
| `LineHeads.PopHeads` | old/queue.c:136-146 | after a finish the next block of the line, and nothing else, becomes ready |
| `LineHeads.OneActivePerHash` | old/queue.c:116-170 | no two active slots hold blocks of the same hash |
| `SerialOrder.StartKeepsLog` | old/queue.c:156-163 | a start extends the run of its hash by the next block in production order |
| `SerialOrder.FinishKeepsLog` | old/queue.c:130-147 | a finish extends the run of its hash by the end of the block that was running |
| `SerialOrder.ProduceKeepsLog` | old/queue.c:183-189 | a produced block comes last in the order of its hash |
| `SerialOrder.EventsArePrefix` | old/queue.c:116-170 | starts and finishes of a hash are a prefix of running its blocks one after the other |
| `SerialOrder.EventsComplete` | old/queue.c:116-170 | when a hash has no unfinished block, they are all of it |
| `TriangleRing.StallKeepsRing` | old/queue.c:124-126 | a stall changes no reference count, no producing triangle and not busy |
| `TriangleRing.StartKeepsRing` | old/queue.c:157-163 | a start raises busy by the one active slot it fills and changes no count |
| `TriangleRing.FinishKeepsRing` | old/queue.c:130-147 | a finish drops the count of its triangle and busy by one each |
| `TriangleRing.ProduceKeepsRing` | old/queue.c:172-198 | producing keeps the ring: the producing triangles are the segment from next_read, which gets one shorter exactly with the last job |
| `TriangleRing.GenerateKeepsRing` | old/queue.c:200-217 | a generated triangle is appended to that segment, into a slot no unfinished block refers to |
| `TriangleRing.ZeroCountIsUnused` | old/queue.c:200-205 | a triangle slot with count 0 is neither producing nor referred to by any unfinished block |
| `Scheduler.InitInv` | old/queue.c:222-234 | init_queue establishes the invariant, for 1 to 8 active slots |
| `Scheduler.StallInv` | old/queue.c:124-126 | a stall keeps the invariant |
| `Scheduler.StartInv` | old/queue.c:156-163 | so does starting a ready block |
| `Scheduler.FinishInv` | old/queue.c:130-147 | so does finishing one |
| `Scheduler.ProduceInv` | old/queue.c:172-198 | so does producing one |
| `Scheduler.GenerateInv` | old/queue.c:200-217 | so does generating a triangle |
| `SchedulerRuns.ProcessQueueInv` | old/queue.c:103-220 | a call of process_queue keeps the invariant, whatever tags have completed and whatever triangles arrive |
| `SchedulerRuns.BlocksOfAHashAreSerialised` | old/queue.c:56-170 | in every run blocks of one hash start and finish in production order, none twice and one at a time, and no two active slots hold blocks of the same hash |
| `SchedulerRuns.ProductionFollowsTheRing` | old/queue.c:172-198 | blocks are produced in the order of the triangles in the ring |
| `SchedulerRuns.SlotStates` | old/queue.c:34-39 | each of the 32 slots is exactly one of free, ready, active, waiting, and active at most once |
| `Turns.HandlersOfUnfinished` | old/queue.c:124-134 | a slot has a handler exactly while its block is unfinished |
| `SchedulerRuns.ChainsAreAcyclic` | old/queue.c:90 | chained_block leads to a younger block of the same hash, so it never loops |
| `SchedulerRuns.ChainsAreInjective` | old/queue.c:90 | no two slots chain to the same slot |
| `SchedulerRuns.ChainTargetsWait` | old/queue.c:139-146 | the waiting slots are exactly those that something chains to |
| `SchedulerRuns.TableHoldsTails` | old/queue.c:56-73 | the table holds a hash at its youngest unfinished block and nowhere else |
| `SchedulerRuns.ReferenceCounts` | old/queue.c:191-205 | a count is one for a producing triangle plus one per unfinished block; with count 0 nothing refers to the slot |
| `SchedulerRuns.BusyCountsTheSegment` | old/queue.c:191-217 | busy is the active slots plus the producing triangles, which are exactly the ring segment between the two ring pointers |
| `SchedulerRuns.WhenFinishedMeansDone` | old/queue.c:236-239 | all is done exactly if busy is 0 and no block is ready |
| `SchedulerRuns.FinishedTooEarly` | old/queue.c:236-239 | a run, with the transfers of its active slot complete at every call, after which has_finished is true with a block still to draw |
| `Turns.SlotsAreTakenInTurn` | old/queue.c:150-190 | in every run each slot that is picked, for a start or for a new block, is the first one ready or free going down from the one taken before and then round from the top; the other starts follow the finish of a block of their hash |
| `Turns.PassedOverAtMost` | old/queue.c:139-163 | a ready block is started, or is still ready after at most 31 picks since, and another 31 for each start handed over from a block to its successor |
| `HandOvers.PassedOverForEver` | old/queue.c:139-163 | runs in which a ready block is passed over by any number of starts, all of them handed over |
| `CallEffects.CallEffect` | old/queue.c:116-170 | a call leaves an active slot alone while its transfers are under way; when they have completed it runs the handler once: the block stalls in its place, or ends and its successor has its place |
| `CallEffects.NothingWaitsInVain` | old/queue.c:116-198 | after a call an active slot that was looked at is idle only if all that is ready is new, and a slot is free only if everything generated before the call has been produced |
| `SchedulerProgress.StallWorks` | old/queue.c:124-126 | a stall uses up one unit of work |
| `SchedulerProgress.StartWorks` | old/queue.c:156-163 | a start uses up one |
| `SchedulerProgress.FinishWorks` | old/queue.c:130-147 | a finish uses up one |
| `SchedulerProgress.ProduceWorks` | old/queue.c:172-198 | producing a block uses up one |
| `SchedulerProgress.CallWorks` | old/queue.c:103-220 | no call without arrivals adds work, and one that finds all tags completed does some |
| `SchedulerProgress.NoWorkMeansDone` | old/queue.c:103-220 | no work is left exactly when all is done |
| `SchedulerProgress.DrainWorks` | old/queue.c:103-220 | over any sequence of calls the work left falls by at least the number of calls with all tags completed |
| `SchedulerProgress.EverythingFinishes` | old/queue.c:103-220 | from any reachable state, after as many full calls as there is work, every block of every triangle has run, for each hash in production order |
| `UnsetHash.NewBlockIsPlaced` | old/queue.c:56-92 | a produced block becomes ready or waits behind an unfinished block of its own hash if and only if its hash is not 0xffff |
| `UnsetHash.UnsetHashDeadlocks` | old/queue.c:56-92 | a block with hash 0xffff in a fresh queue is never started |
| `UnsetHash.UnsetHashTakesATurn` | old/queue.c:74-91 | the first block with hash 0xffff takes the turn of a waiting block of another hash if and only if the lowest slot without a table entry holds an unfinished block; the one that loses its turn is that block's successor, and otherwise no link of an unfinished block changes |
| `UnsetHash.LostForGood` | old/queue.c:116-198 | a block that has lost its turn is never started, whatever calls follow |
| `UnsetHash.SerialUntilUnset` | old/queue.c:56-198 | in every run, as long as no block with hash 0xffff has been produced, whatever is still to come, blocks of one hash start and finish in production order |
| `UnsetHashExample.OrdinaryBlockLost` | old/queue.c:56-198 | a run from the initial state, with one active slot, in which a block of hash 7 loses its turn to one of hash 0xffff for good |
| `BlockQueue.Queue.constructor` | old/queue.c:222-234 | a new queue is the initial state |
| `HashVectors.ClearIsUpdate` | old/queue.c:42-54 | rotating the four constants and selecting under the halfword masks empties the entry of the slot and no other, in the order in which the entries lie in the vectors |
| `HashVectors.ChainIsChainTable` | old/queue.c:60-73 | comparing, or-ing and selecting wipes every entry with the hash and enters it at the slot |
| `HashVectors.HolderIsLowestMatch` | old/queue.c:60-81 | the gathered comparison bytes, shuffled into one word, have the lowest slot with the hash as their leading-zero count, and 32 if none has it |
| `BlockQueue.Queue.ClearHash` | old/queue.c:42-54 | the four selects on hash0 to hash3 leave the table with the entry of the slot emptied |
| `BlockQueue.Queue.ChainHash` | old/queue.c:56-92 | the compares, rotate, selects, gathers and leading-zero count on hash0 to hash3 update table and chained_block as specified and say whether the hash was absent |
| `BlockQueue.Queue.StartNextBlock` | old/queue.c:150-167 | fills an idle active slot from the ready mask as the specification does |
| `BlockQueue.Queue.FinishBlock` | old/queue.c:130-146 | the finish branch is the specified finish |
| `BlockQueue.Queue.VisitSlot` | old/queue.c:117-169 | the body of the loop over active slots, with its jumps, is the specified visit |
| `BlockQueue.Queue.ProduceBlock` | old/queue.c:173-197 | one round of the producing loop is the specified production |
| `BlockQueue.Queue.GenerateTriangles` | old/queue.c:200-217 | the generating loop is the specified one |
| `BlockQueue.Queue.ProcessQueue` | old/queue.c:103-220 | process_queue on masks and arrays updated in place takes the abstract state to the specified one |
| `FifoFormat.HeadRoundTrip` | server/primaryspu/main.c:97-99 | the head word gives back the command number and the payload length it was made of |
| `FifoFormat.DecodeHeld` | server/primaryspu/main.c:94-106 | reading a command that memory holds gives that command |
| `FifoFormat.LayoutAppend` | client/fifodefs.h:52-63 | a whole command written at the write pointer extends the chain of commands, jumps followed, by that command |
| `FifoWriter.Writer.EmitCommand` | client/fifodefs.h:52-63 | a command is in memory whole before write_ptr moves past it, nothing else is written, and decoding gives it back |
| `CommandFifo.ClientWriteKeeps` | client/fifodefs.h:61 | writing ahead of write_ptr keeps the protocol invariant |
| `CommandFifo.PublishKeeps` | client/fifodefs.h:55-59 | so does publishing a whole command |
| `CommandFifo.EnterKeeps` | server/primaryspu/main.c:60-83 | so does entering a queue and reserving its pointers |
| `CommandFifo.LoopKeeps` | server/primaryspu/main.c:85-91 | so does the loop test and the comparison of the window's address |
| `CommandFifo.RetryKeeps` | server/primaryspu/main.c:91-141 | so does looking at the window and running a command |
| `CommandFifo.UpdateKeeps` | server/primaryspu/main.c:141-155 | so does the conditional store of the read pointer, failing or not |
| `CommandFifo.JumpUpdateKeeps` | server/primaryspu/main.c:120-130 | so does the one after a jump |
| `CommandFifo.FillKeeps` | server/primaryspu/main.c:162-180 | so does refilling the window |
| `CommandFifo.WindowShowsNext` | server/primaryspu/main.c:92-106 | a command that is wholly in the window is the next published one and what memory holds |
| `FifoRuns.RunKeeps` | server/primaryspu/main.c:60-183 | the invariant holds after every interleaving of client writes, publishes, SPU steps and lost reservations |
| `FifoRuns.CompletedThenUnread` | server/primaryspu/main.c:73-183 | what has been completed, followed by what an interpreter without a window would read now, is exactly what was published |
| `FifoRuns.WindowIsNeverStale` | server/primaryspu/main.c:92-106 | whatever is run out of the window is what memory holds at the read position |
| `FifoRuns.ClientPointerIsKept` | server/primaryspu/main.c:141-151 | the write-back of the read pointer never takes back a write_ptr that the client stored |
| `FifoRuns.ReadPointerIsOnABoundary` | server/primaryspu/main.c:120-155 | at every moment read_ptr is at the start of the first unfinished command, or of the one just completed until its write-back succeeds; with all done and written back it equals write_ptr |
| `FifoCost.RefillSuffices` | server/primaryspu/main.c:162-180 | a refill shows the next command if and only if its distance from the 128-byte line plus its length is at most 1024 and the write_ptr last read does not point into the middle of it |
| `FifoCost.PayloadBound` | server/primaryspu/main.c:162-166 | the first of these holds for every payload of up to 224 words and fails for longer ones at the end of a line |
| `FifoCost.EndlessRefill` | server/primaryspu/main.c:91-180 | and otherwise nothing more is ever completed, whatever client and SPU do |
| `FifoCost.LongCommandStops` | server/primaryspu/main.c:162-180 | a legal run from a fresh queue reaches that with 225 words of payload |
| `FifoCost.JumpIntoCommandStops` | server/primaryspu/main.c:162-180 | and one does with two words of payload, when the command is followed by a jump into it |
| `FifoCost.TidyIsClear` | client/fifodefs.h:55-59 | if no publish leaves write_ptr inside an unread command, the SPU never has a write_ptr that points into one |
| `FifoCost.RefillSufficesInTidyRuns` | server/primaryspu/main.c:162-180 | in such a run a refill shows the next command if and only if it fits into the 1024 bytes |
| `FifoCost.MovePays` | server/primaryspu/main.c:85-180 | with payloads of up to 224 words a refill shows a command, and a visible command is completed or refuses at the next move |
| `FifoCost.OneRefillPerCommand` | server/primaryspu/main.c:85-180 | so in every such run, whatever the client does in between, there are at most as many refills as completed commands and refusals, and one |
| `FifoRuns.KeepingTheWindowIsWrong` | server/primaryspu/main.c:116-117 | a run in which a window kept across a jump would show a stale word: the invalidation is needed |
| `FifoRefusals.WhatCompletes` | server/primaryspu/main.c:97-140 | a look at a visible command completes it and moves on, or, when the handler refuses and it is no jump, changes nothing and gives up; no other step completes anything |
| `FifoRefusals.CompletedAreAccepted` | server/primaryspu/main.c:97-140 | in every run the completed commands are the first of the published, as many as looks accepted one |
| `FifoRefusals.RefusedComesAgain` | server/primaryspu/main.c:108-114 | after a refusal the pointers stand still and every look sees the refused command, until one accepts it |
| `FifoProgress.EverythingIsCompleted` | server/primaryspu/main.c:79-181 | left alone after any tidy run with short payloads, the SPU comes to rest within nine moves a command, with read_ptr at write_ptr, and has completed everything unless write_ptr is at the start of an unread command |
| `FifoProgress.ReturnLooksEmpty` | server/primaryspu/main.c:85 | a run that brings write_ptr there, by a jump back to the jump itself: nothing is ever completed |
| `FifoProgress.RefillsAreNeeded` | server/primaryspu/main.c:89-162 | the window is refilled only if it is another queue's or does not show the next command |
| `FifoProgress.WindowIsKept` | server/primaryspu/main.c:116-117 | it is given up only to another queue or by a jump |
| `FifoProgress.WhyItLeaves` | server/primaryspu/main.c:85-155 | the SPU leaves a queue only at its write_ptr, on a refusal, or after a jump |
| `FifoProgress.WritesBack` | server/primaryspu/main.c:120-155 | a store that succeeds publishes the read position, keeps write_ptr, and the SPU goes on with it; one that fails is tried again |
| `BufferLifetime.FirstFree` | server/blockmanagement.c:192-194 | the scan of a word finds its first negative count |
| `BufferLifetime.ServerKeeps` | server/blockmanagement.c:169-273 | every step of allocate, dispose and try-free, with its reservation held or lost, keeps the invariant |
| `BufferLifetime.SpuKeeps` | server/primaryspu/main.c:195-226 | every step of the SPU's locking and unlocking does |
| `BufferLifetime.CountsAreReferences` | server/blockmanagement.c:169-273 | a count is -1 exactly for an unowned slot, and otherwise one for the client reference not yet dropped plus one for the SPU's lock |
| `BufferLifetime.SlotsAreNotShared` | server/blockmanagement.c:183-207 | no two live allocations have the same slot |
| `BufferLifetime.NeverUnmappedUnderTheSpu` | server/primaryspu/main.c:195-223 | while the SPU is inside a queue, the address it read belongs to a live allocation in that slot that has not been unmapped |
| `BufferLifetime.DisposedAndUnmappedOnce` | server/connection.c:55-84 | each allocation is dropped at most once and unmapped at most once, the latter only after the former; between calls the flags tell which have been |
| `BufferLifetime.NotFreedWhileInUse` | server/blockmanagement.c:250-257 | trying to free what is in use changes nothing |
| `BufferLifetime.FreedWhenUnused` | server/blockmanagement.c:262-272 | trying to free what is not in use sets its count to -1, unmaps it, and touches nothing else |
| `BufferKinds.SlotsAreOfTheirKind` | server/blockmanagement.c:174-180 | in every run command queues have the first 16 slots and data buffers the others, and the SPU is only ever inside a command queue |
| `BufferKinds.AllocationEnds` | server/blockmanagement.c:182-213 | an allocation ends in a new one of the kind asked for, in a free slot of that kind, or with every slot of the kind taken |
| `BufferKinds.FailsWhenFull` | server/blockmanagement.c:182-213 | the allocator gives up at its last word exactly if every slot of the kind asked for is taken at that moment |
| `BufferKinds.TryEnds` | server/blockmanagement.c:241-273 | a try to free ends without freeing only if the count is positive, however often its store fails |
| `SpuRounds.RoundEntersAll` | server/primaryspu/main.c:185-227 | a round of the SPU with nobody interfering enters exactly the queues in use, each once and in order, and leaves the counts as they were |
| `Connection.Client.HandleDisconnect` | server/connection.c:46-68 | every allocation is flagged as disposed and each count falls by the references that were live |
| `Connection.Client.FreeBuffer` | server/connection.c:70-90 | the first allocation with that id not yet disposed of is disposed of; none if there is none |
| `Connection.Client.FlushQueue` | server/connection.c:92-105 | the client's own queue is marked as waiting; a flush of anything else is acknowledged at once |
| `Connection.Client.ProcessOutstanding` | server/connection.c:107-152 | flushes that are done are acknowledged while the client is there; what has no positive count is unlinked and unmapped in order, its count set to -1; the rest stays in order |
| `ConnectionRuns.LowestFree` | server/blockmanagement.c:169-213 | allocation takes the lowest slot of its range with a negative count, or none |
| `ConnectionKinds.TakesTheLowest` | server/blockmanagement.c:169-213 | an allocation gets the lowest free slot of its own kind, and is refused exactly if there is none |
| `ConnectionKinds.QueuesComeFirst` | server/blockmanagement.c:174-180 | in every run of a connection the command queues, and only they, are in the first 16 slots |
| `ConnectionRuns.AllocatedKeeps` | server/connection.c:209-230 | allocating keeps: counts are references, slots are not shared, nothing is lost |
| `ConnectionRuns.RequestsKeep` | server/connection.c:70-105 | so do free, flush and the flush notification |
| `ConnectionRuns.DisconnectedKeeps` | server/connection.c:46-68 | so does a disconnect |
| `ConnectionRuns.KeptAndFreed` | server/connection.c:107-152 | clearing up partitions the list: kept and freed together are all there was |
| `ConnectionRuns.KeptIsFrom` | server/connection.c:107-152 | everything kept was in the list and in use, with only its flush flags changed |
| `ConnectionRuns.ProcessedKeeps` | server/connection.c:107-152 | clearing up keeps the invariant |
| `ConnectionRuns.DisposedOnceUnmappedOnce` | server/connection.c:55-152 | in every run of a connection each allocation is dropped at most once, and is either listed or unmapped, once |
| `ConnectionRuns.GivesBackTheUnused` | server/connection.c:130-150 | clearing up frees exactly what has been disposed of and is not locked by the SPU |
| `ConnectionRuns.AcknowledgedOnce` | server/connection.c:121-129 | what has been flushed is acknowledged by one clearing up and not again |
| `ConnectionFlushes.WaitingCleared` | server/connection.c:107-152 | each flush waiting at a clearing up is acknowledged by it, still waits, or goes with its queue |
| `ConnectionFlushes.FlushesAreAccountedFor` | server/connection.c:92-152 | in every run the flushes asked for are those acknowledged, those waiting, those that met a queue already waiting, and those whose queue or client was gone first |
| `ConnectionNotices.NoticeMarks` | server/main.c:63-79 | the SPU's notification marks the listed command queue in its slot as done, and nothing else |
| `ConnectionNotices.AnsweredAfterNotice` | server/connection.c:92-129 | each acknowledgement for an allocation has its own earlier request and its own earlier notification for that queue |
| `ConnectionRuns.NothingIsLeft` | server/connection.c:46-152 | after a disconnect and with no lock held, clearing up leaves no allocation, and each one ever made has been unmapped once |
| `TextureCache.Lookup` | old/shader.c:264-299 | the lookup gives the lowest slot tagged with the id, and 32 exactly when no slot is |
| `TextureCache.NextSlot` | old/texture.c:129-138 | the slot chosen is always a free one |
| `TextureCache.InitInv` | old/texture.c:249-253 | the initial cache agrees with its tags |
| `TextureCache.LoadKeeps` | old/texture.c:119-227 | starting the loads of an active block keeps the invariant as long as the DMA queue has room for each missing texture that finds a free slot: tagged slots hold their block, slots in flight are untagged, not free and not shared |
| `TextureCache.FinishTags` | old/texture.c:237-241 | the AND-merge tags exactly the slots that were loaded and leaves all other tags alone |
| `TextureCache.FinishKeeps` | old/texture.c:237-246 | finishing a load keeps the invariant |
| `TextureRuns.SmoothKeeps` | old/texture.c:119-246 | the invariant holds after every run of loads and finishes of several active blocks in which the DMA queue had room |
| `TextureRuns.FoundIsRight` | old/shader.c:264-299 | in every such run a slot that is found holds the wanted block, and no slot in flight is free or shared |
| `TextureRuns.FullQueueLies` | old/texture.c:151-188 | with the flags of the lookup, the cache agrees with its tags after the finish if and only if the DMA queue had room for each missing texture that found a free slot |
| `TextureRuns.BlockedLoadLies` | old/texture.c:151-188 | otherwise the slot claimed last has the tag of a block that it does not hold, and the lookup finds that block |
| `TextureRuns.FirstBlockedLoadShows` | old/texture.c:119-246 | after any run with room, the next load shows in the tags exactly if the queue is full for it |
| `TextureRuns.FullQueueExample` | old/texture.c:119-246 | the very first load with a full queue: block 5 is found in slot 15, into which nothing was loaded |
| `CyclicReplacement.NextInTurn` | old/texture.c:125-138 | with one active block the slot taken is always the one before the last, round the 16 |
| `CyclicReplacement.LanesInTurn` | old/texture.c:125-223 | loading n textures makes every other slot n older and puts the n into the youngest slots |
| `CyclicReplacement.ReloadKeepsRecent` | old/texture.c:125-246 | after a stall and its load, what was missing is there, and what was loaded shortly before still is |
| `Interpolation.AdvanceIsBegin` | old/shader.c:443-451 | stepping all interpolated variables gives what a fresh start at the stepped weights computes |
| `Attributes.AttributesAtPixel` | old/shader.c:200-230 | at each lane of each quad of each block handed out, w, s and t are each their own three vertex values times the exact edge weights at the pixel, and k is the volume that they span with those of the pixel to the right and the pixel below |
| `Attributes.ValueAtVertex` | old/shader.c:200-216 | such a value is the vertex's own at a vertex, times the area |
| `Attributes.ValueOfPosition` | old/shader.c:200-216 | and the pixel's position when the attribute is the vertices' position |
| `Interpolation.StepIsNext` | old/shader.c:439-451 | the step chosen from the count of quads left leads from each quad of the tile to the next, rows included |
| `TextureFill.DrawQuadIsIdeal` | old/shader.c:307-435 | with a cache that agrees with its tags, a quad is drawn as from the textures themselves |
| `TextureFill.FillFromIsPart` | old/shader.c:72-463 | a call from any quad draws what is to be drawn up to the quad where it stalls, and leaves the block so that the next call takes up there |
| `TextureStalls.StallsDoNotShow` | old/shader.c:106-112 | over any number of stalls and any caches met, the tile is that of one uninterrupted pass and the triangle's count falls once |
| `TextureStalls.StallWants` | old/shader.c:234-305 | a call stalls because something is missing at a quad with a pixel inside, and the resumed call wants the same textures |
| `TextureStalls.StallGathers` | old/texture.c:125-246 | each stall leaves at least one more of the four textures among the recently loaded |
| `TextureStalls.FourStallsSuffice` | old/shader.c:298-305 | with one active block a quad draws after at most four stalls, whatever the cache held |
| `TextureStalls.FillTerminates` | old/shader.c:232-462 | the fill of a tile ends after at most four stalls a quad with the tile fully drawn |
| `DrawnTile.TileIsDrawn` | old/shader.c:72-463 | the fill of a block ends, and each pixel then has the shader's colour for the attributes at that pixel if it is inside the triangle, and is as it was otherwise |
| `TextureUnit.Unit.LoadMissingTextures` | old/texture.c:119-232 | the loop over the lanes, with its early exits, is the specified load |
| `TextureUnit.Unit.FinishTextureLoad` | old/texture.c:237-246 | the merge is the specified finish |
| `TextureUnit.Filler.Fill` | old/shader.c:106-462 | the loop over the quads updates tile, block and count exactly as specified, whether it ends or stalls |
| `EdgeWeights.WeightIsSide` | old/primitives.c:247-251 | each of the three weights is the side of the point with respect to the edge across from its vertex |
| `EdgeWeights.WeightsSumToFace` | old/primitives.c:238-251 | the weights add up to the signed area at every point |
| `EdgeWeights.VanishesOnEdge` | old/primitives.c:247-251 | a weight is nought all along the opposite edge |
| `EdgeWeights.NoPixelTwice` | old/primitives.c:310-312 | two triangles with a common edge in opposite directions have opposite weights for it, so no point is inside both |
| `EdgeWeights.WeightsLocate` | old/primitives.c:310-312 | the weights are barycentric coordinates times the area |
| `EdgeWeights.InsideIsBetweenVertices` | old/primitives.c:310-312 | for a visible triangle all weights are negative exactly at the points strictly between its vertices |
| `EdgeWeights.FaceTurns` | old/primitives.c:238-241 | the area does not depend on the vertex it starts with |
| `BlockProducer.ExtremesAreRight` | old/primitives.c:64-73 | the comparison table gives the smallest and largest coordinate, and nought exactly when all three are equal |
| `BlockProducer.Triangle.constructor` | old/primitives.c:304-320 | the fields set up for the producer are the specified ones |
| `BlockProducer.Triangle.NextBlock` | old/primitives.c:125-173 | a call of triangleProducer is the specified one, counters wrapping at their widths |
| `BlockProducer.CountsDown` | old/primitives.c:156-168 | the halfword count reads as run out exactly when it is, for up to 65536 blocks |
| `BlockProducer.BlocksInOrder` | old/primitives.c:125-173 | call n gives block n of the rectangle, row by row, with the exact weights of its corner; the producer stops after exactly all of them; the number returned is the place of the next block |
| `BlockProducer.EachBlockOnce` | old/primitives.c:151-168 | each block of the rectangle has one turn |
| `BlockProducer.UnsetHashIsLastPlace` | old/primitives.c:172 | the returned number is 0xffff as a halfword if and only if the next place is column 255 of row 255 |
| `Rasteriser.BoundsCover` | old/primitives.c:281-302 | every point of the screen's whole blocks that is inside a visible triangle is in the rectangle of blocks |
| `Rasteriser.BoundsReach` | old/primitives.c:281-302 | the rectangle reaches no further than the triangle and the screen's whole blocks: each of its four sides has a vertex within its outermost blocks or beyond |
| `Rasteriser.MaskIsInside` | old/shader.c:233-237 | a lane of the fill's mask is set exactly if its pixel is inside the triangle |
| `Rasteriser.DrawsIfInside` | old/shader.c:233-237 | which holds for each lane of each quad of each block that the producer hands out |
| `Rasteriser.InsideIsDrawnOnce` | old/primitives.c:281-320 | each pixel of the screen's whole blocks that is inside a visible triangle is drawn at exactly one block, quad and lane |
| `MaskFill.LanesStep` | pixelshaders/mask.c:93-99 | a step leads from the four wrapped values of a quad to those of the next, rows included |
| `MaskFill.LanesFirst` | pixelshaders/mask.c:50-67 | the first four values are those of the first quad |
| `MaskFill.Render` | pixelshaders/mask.c:29-101 | for all 32-bit values, pixel (x, y) gets the colour exactly if the sign bits of all three wrapped edge values are set; all others are unchanged |
| `MaskFill.CornersDecide` | pixelshaders/mask.c:32-67 | if the four corners of a tile do not overflow, the wrapped values of every pixel are the exact ones |
| `VertexAssembly.TenPrimitives` | old/primitives.c:598-603 | glBegin accepts exactly the states 0 to 9 |
| `VertexAssembly.Assembler.GlBegin` | old/decode.c:58-69 | nested and invalid calls raise their errors; a nested one still begins |
| `VertexAssembly.Assembler.GlVertex` | old/primitives.c:508-596 | one vertex through the table is the specified step |
| `VertexAssembly.Assembler.GlEnd` | old/decode.c:73-81 | closing and leaving the primitive, or the error, is the specified step |
| `VertexAssembly.FedDraws` | old/primitives.c:393-491 | after any number of vertices of any of the ten primitives exactly the complete lines or triangles have been drawn |
| `VertexAssembly.PrimitiveIsAssembled` | old/primitives.c:393-620 | lines, line strips, line loops with their closing line, triangles, fans and quads come out as the OpenGL specification has them, whatever the register held before; quad strips come out as quads, polygons as triangles, and triangle strips as one triangle without area and then triangles |
| `VertexRuns.AnyCallsAreServed` | old/decode.c:58-81 | any sequence of glBegin, vertices inside it and glEnd, nested and invalid ones included, draws exactly the pieces of the primitives asked for and raises exactly the errors |
| `VertexRuns.StripsAreWrong` | old/primitives.c:404-432 | a triangle strip comes out right if and only if it has fewer than two vertices, or three that are the same |
| `VertexRuns.PolygonsAreWrong` | old/primitives.c:412-460 | a polygon if and only if it has at most three |
| `VertexRuns.QuadStripsAreWrong` | old/primitives.c:410-453 | a quad strip if and only if it has fewer than four, or fewer than six with the third and fourth the same |
| `TileMemory.GetPut` | old/activeblock.c:162-163 | a tile that is stored and fetched is unchanged |
| `TileMemory.PutGet` | old/activeblock.c:162-163 | storing what was fetched changes no memory |
| `TileMemory.PutPut` | old/activeblock.c:162-163 | the last store of a tile is the one that counts |
| `TileMemory.ScatterIsPut` | old/activeblock.c:162 | a list transfer of 32 rows to memory writes exactly the tile |
| `TileMemory.GatherIsGet` | old/activeblock.c:163 | one from memory reads exactly the tile |
| `ActiveTile.BuildBlitList` | old/activeblock.c:47-96 | the sixteen pairs of list elements, made by adding steps of 2 to 16 rows in 32 bits, are the 32 rows in order |
| `ActiveTile.ListIsTile` | old/activeblock.c:80-96 | that list covers exactly the rows of the tile |
| `ActiveTile.Active.constructor` | old/activeblock.c:24-31 | a new active block holds no tile |
| `ActiveTile.Active.BlockActivater` | old/activeblock.c:112-171 | an activation, with its transfers and the exchange of the two lists, is the specified one |
| `ActiveTile.Active.Store` | old/activeblock.c:33-43 | a flush is the specified one |
| `ActiveTile.ActivateHolds` | old/activeblock.c:112-171 | after an activation the pixels are those the tile should have, and a store would put all earlier drawing in its place |
| `ActiveTile.FlushWritesAll` | old/activeblock.c:24-171 | from init to the first flush, drawing on any tiles in any order leaves memory as drawing straight in it would |
| `ActiveTile.SecondFlush` | old/activeblock.c:33-43 | after a flush, what is drawn next reaches memory with the next flush if and only if it is on another tile or changes nothing |
| `Hilbert.QuartersTile` | old/hilbert.c:10-52 | the four recursive walks of an orientation tile its square |
| `Hilbert.WalkFillsSquare` | old/hilbert.c:10-56 | a walk of depth d visits exactly the cells of a square of side 2^d |
| `Hilbert.WalkIsInjective` | old/hilbert.c:10-56 | no cell twice |
| `Hilbert.EntriesMeet` | old/hilbert.c:17-51 | the single steps between the walks lead from the end of one to the start of the next |
| `Hilbert.WalkIsConnected` | old/hilbert.c:10-56 | consecutive cells are one step apart, from the start to the far corner of the orientation |
| `Hilbert.Walk` | old/hilbert.c:10-56 | a walk has 4^d cells |
| `Hilbert.Curve.Emit` | old/hilbert.c:10-56 | emit prints the numbered walk, leaves the coordinates in its far corner and n increased by its length |

## Left out

- Sockets, mmap, ioctl, signals, thread control, framebuffer modes and the joystick: input and output.
- Rounding of floating-point numbers, perspective division, choice of the mipmap level and bilinear filtering: exact or arbitrary here.
- The two triangles of a quad are generated into the same triangle slot by one vertex; the model lists both as handed on.
- Vertices outside glBegin and glEnd: the original reads in front of its table then, as its state check is compiled out.
- Triangles whose rectangle of blocks is empty because they are off the screen, and rectangles whose coordinates do not fit into bytes.
- Columns and rows of a screen beyond its last whole block of 32 pixels: the original clips them away, and so does the model.
- Textures that are not square, the addresses of texture pixels and the borders of texture blocks: a slot holds a block as a whole.
- A window that survives when a queue is unmapped and another one is mapped at the same address: one queue is modelled, others only overwrite the window.
- glColor4f and the attribute calls, which write a different number of words from what they announce: the stream is any sequence of commands with matching lengths.
- The older interpreter in old/spufifo.c, which keeps its window across a jump.
- The renderables, the render tasks and the second set of SPUs: no lock is taken on data buffers.
- CommandFifo.RetryKeeps: command handlers are a choice between done and refused, because what they do to the context does not touch the queue.
- CommandFifo and BufferLifetime are state machines over single accesses, not methods, because the other side may act between any two of them.
- Connection.Client.ProcessOutstanding: the linked list of allocations is a sequence field, so the model does not capture the pointer surgery that unlinks an entry, only its effect and order.
- TextureUnit.Unit.LoadMissingTextures: the pixels of a slot arrive when its load is finished, because before that no tag lets anyone read them.
- TextureStalls.FourStallsSuffice: for one active block, which is how the original is configured; nothing is claimed about how often several active blocks take each other's slots.
- ActiveTile.FlushWritesAll: for tiles with one common high address word that is not at address 0, since an activation stores the old tile with the new tile's high word, and 0 is what the buffer holds before its first tile.
- Hilbert.Curve.Emit: the printed orientation and the line breaks.
