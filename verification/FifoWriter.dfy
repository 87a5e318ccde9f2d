/** The producer macros of client/fifodefs.h: a cursor that runs ahead of write_ptr. */
module FifoWriter {
  import opened FifoFormat

  class Writer {
    var mem: Memory
    var writePtr: int
    var cursor: int

    /** FIFO_PROLOGUE */
    method Prologue()
      modifies this`cursor
      ensures cursor == writePtr
    {
      cursor := writePtr;
    }

    /** OUT_RING */
    method OutRing(v: int)
      modifies this`mem, this`cursor
      ensures mem == old(mem)[old(cursor) := v] && cursor == old(cursor) + 4
    {
      mem := mem[cursor := v];
      cursor := cursor + 4;
    }

    /** FIFO_EPILOGUE */
    method Epilogue()
      modifies this`writePtr
      ensures writePtr == cursor
    {
      writePtr := cursor;
    }

    /** One command, as the generated client functions emit it. It is in memory, whole, before
        write_ptr moves past it, nothing else is written, and reading it back gives it again. */
    method EmitCommand(op: int, data: seq<int>)
      requires 0 <= op < WORD && |data| < 256
      modifies this
      ensures writePtr == old(writePtr) + Bytes(Cmd(op, data))
      ensures Holds(mem, old(writePtr), Cmd(op, data))
      ensures Valid(Cmd(op, data)) ==> DecodeAt(mem, old(writePtr)) == Cmd(op, data)
      ensures forall a :: !(old(writePtr) <= a < writePtr) ==> Word(mem, a) == Word(old(mem), a)
    {
      Prologue();
      OutRing(op + |data| * WORD);
      var k := 0;
      while k < |data|
        invariant 0 <= k <= |data| && writePtr == old(writePtr) && cursor == writePtr + 4 + 4 * k
        invariant Word(mem, writePtr) == op + |data| * WORD
        invariant forall j :: 0 <= j < k ==> Word(mem, writePtr + 4 + 4 * j) == data[j]
        invariant forall a :: !(writePtr <= a < cursor) ==> Word(mem, a) == Word(old(mem), a)
      {
        OutRing(data[k]);
        k := k + 1;
      }
      Epilogue();
      if Valid(Cmd(op, data)) {
        DecodeHeld(mem, old(writePtr), Cmd(op, data));
      }
    }
  }
}
