/** One round of the SPU over the command queues, with nobody interfering: it enters each queue that is in
    use once, in order, and leaves the counts as they were. */
module SpuRounds {
  import opened BufferLifetime

  /** n steps of the SPU alone, beginning with queue c when it is away. */
  function Alone(s: State, c: nat, n: nat): (r: State)
    requires SpuFits(s) && c < QUEUES
    ensures SpuFits(r)
  {
    if n == 0 then s
    else
      StepFits(Alone(s, c, n - 1), c);
      SpuStep(Alone(s, c, n - 1), c)
  }

  lemma StepFits(s: State, c: nat)
    requires SpuFits(s) && c < QUEUES
    ensures SpuFits(SpuStep(s, c))
  {
  }

  /** The queue that the step enters, if it enters one. */
  function Enters(s: State, c: nat): seq<nat>
    requires SpuFits(s) && c < QUEUES
  {
    if s.spu.LockStore? && SpuStep(s, c).spu.Inside? then [s.spu.q] else []
  }

  /** The queues entered in the first n steps. */
  function Entered(s: State, c: nat, n: nat): seq<nat>
    requires SpuFits(s) && c < QUEUES
  {
    if n == 0 then [] else Entered(s, c, n - 1) + Enters(Alone(s, c, n - 1), c)
  }

  lemma {:induction false} AloneOn(s: State, c: nat, m: nat, n: nat)
    requires SpuFits(s) && c < QUEUES
    ensures Alone(s, c, m + n) == Alone(Alone(s, c, m), c, n)
    ensures Entered(s, c, m + n) == Entered(s, c, m) + Entered(Alone(s, c, m), c, n)
  {
    hide SpuFits, Enters, SpuStep;
    if n > 0 {
      AloneOn(s, c, m, n - 1);
    }
  }

  /** At queue q, with a copy of the counts that is up to date. */
  ghost predicate At(s: State, q: nat) {
    SpuFits(s) && s.spu == Check(q) && s.line == s.counts[..LINE]
  }

  /** On to the next queue, or away after the last. */
  function Onward(s: State, q: nat): SpuPc {
    if (q + 1) % QUEUES == s.stop then Away else Check((q + 1) % QUEUES)
  }

  /** The same tables and the same round. */
  ghost predicate Same(s: State, r: State) {
    r.counts == s.counts && r.stop == s.stop && r.allocs == s.allocs && r.ea == s.ea && SpuFits(s) && SpuFits(r)
  }

  /** Queue q has been dealt with. */
  ghost predicate Dealt(s: State, r: State, q: nat) {
    Same(s, r) && r.spu == Onward(s, q) && r.line == r.counts[..LINE]
  }

  lemma OneStep(s: State, c: nat)
    requires SpuFits(s) && c < QUEUES
    ensures SpuFits(SpuStep(s, c)) && Alone(s, c, 1) == SpuStep(s, c) && Entered(s, c, 1) == Enters(s, c)
  {
    StepFits(s, c);
    hide SpuFits, Enters, SpuStep;
    assert Alone(s, c, 0) == s && Entered(s, c, 0) == [];
  }

  lemma Unused(s: State, q: nat, c: nat)
    requires At(s, q) && c < QUEUES && s.counts[q] <= 0
    ensures Dealt(s, Alone(s, c, 1), q) && Entered(s, c, 1) == []
  {
    OneStep(s, c);
    hide Alone, Entered;
  }

  /** With a reservation the lock is taken in two steps. */
  lemma Locks(s: State, q: nat, c: nat)
    requires At(s, q) && c < QUEUES && s.counts[q] > 0 && s.lineReserved
    ensures SpuFits(s) && SpuFits(Alone(s, c, 2))
    ensures Alone(s, c, 2).spu == Inside(q) && Alone(s, c, 2).counts == s.counts[q := s.counts[q] + 1]
    ensures Alone(s, c, 2).stop == s.stop && Alone(s, c, 2).allocs == s.allocs && Alone(s, c, 2).ea == s.ea
    ensures Entered(s, c, 2) == [q]
  {
    var a := SpuStep(s, c);
    OneStep(s, c);
    OneStep(a, c);
    AloneOn(s, c, 1, 1);
    hide Alone, Entered;
    assert a.line == s.counts[..LINE][q := s.counts[q] + 1];
    LineStored(s.counts, q, s.counts[q] + 1);
  }

  /** And given back in three. */
  lemma Unlocks(s: State, q: nat, c: nat)
    requires SpuFits(s) && s.spu == Inside(q) && c < QUEUES
    ensures var r := Alone(s, c, 3);
            && SpuFits(r) && r.counts == s.counts[q := s.counts[q] - 1] && r.stop == s.stop && r.allocs == s.allocs && r.ea == s.ea
            && r.spu == Onward(s, q) && r.line == r.counts[..LINE] && Entered(s, c, 3) == []
  {
    hide Alone, Entered, SpuFits, SpuStep, Enters;
    ThreeFit(s, c);
    ThreeSteps(s, c);
    UnlockSteps(s, q, c);
  }

  lemma ThreeFit(s: State, c: nat)
    requires SpuFits(s) && c < QUEUES
    ensures SpuFits(SpuStep(s, c)) && SpuFits(SpuStep(SpuStep(s, c), c)) && SpuFits(SpuStep(SpuStep(SpuStep(s, c), c), c))
  {
    StepFits(s, c);
    StepFits(SpuStep(s, c), c);
    StepFits(SpuStep(SpuStep(s, c), c), c);
    hide SpuFits, SpuStep;
  }

  lemma UnlockSteps(s: State, q: nat, c: nat)
    requires SpuFits(s) && s.spu == Inside(q) && c < QUEUES && SpuFits(SpuStep(s, c)) && SpuFits(SpuStep(SpuStep(s, c), c))
    ensures var a := SpuStep(s, c);
            var b := SpuStep(a, c);
            var r := SpuStep(b, c);
            && Enters(s, c) == [] && Enters(a, c) == [] && Enters(b, c) == []
            && r.counts == s.counts[q := s.counts[q] - 1] && r.stop == s.stop && r.allocs == s.allocs && r.ea == s.ea
            && r.spu == Onward(s, q) && r.line == r.counts[..LINE]
  {
    var b := SpuStep(SpuStep(s, c), c);
    assert b.line == s.counts[..LINE][q := s.counts[q] - 1];
    LineStored(s.counts, q, s.counts[q] - 1);
  }

  lemma ThreeSteps(s: State, c: nat)
    requires SpuFits(s) && c < QUEUES && SpuFits(SpuStep(s, c)) && SpuFits(SpuStep(SpuStep(s, c), c))
    ensures var a := SpuStep(s, c);
            var b := SpuStep(a, c);
            && Alone(s, c, 3) == SpuStep(b, c) && SpuFits(SpuStep(b, c))
            && Entered(s, c, 3) == Enters(s, c) + Enters(a, c) + Enters(b, c)
  {
    hide SpuFits, SpuStep, Enters;
    var a := SpuStep(s, c);
    var b := SpuStep(a, c);
    OneStep(s, c);
    OneStep(a, c);
    OneStep(b, c);
    AloneOn(s, c, 1, 1);
    AloneOn(s, c, 2, 1);
  }

  lemma LocksAndUnlocks(s: State, q: nat, c: nat)
    requires At(s, q) && c < QUEUES && s.counts[q] > 0 && s.lineReserved
    ensures Dealt(s, Alone(s, c, 5), q) && Entered(s, c, 5) == [q]
  {
    hide Alone, Entered, SpuFits, SpuStep;
    AtFits(s, q);
    Locks(s, q, c);
    Unlocks(Alone(s, c, 2), q, c);
    AloneOn(s, c, 2, 3);
    BackAgain(s.counts, q);
  }

  lemma BackAgain(counts: seq<int>, q: nat)
    requires q < |counts|
    ensures var up := counts[q := counts[q] + 1]; up[q := up[q] - 1] == counts
  {
  }

  /** Without one the store fails, and the line is loaded again. */
  lemma Reloads(s: State, q: nat, c: nat)
    requires At(s, q) && c < QUEUES && s.counts[q] > 0 && !s.lineReserved
    ensures var r := Alone(s, c, 3);
            && Same(s, r) && At(r, q) && r.lineReserved && Entered(s, c, 3) == []
  {
    var a := SpuStep(s, c);
    OneStep(s, c);
    OneStep(a, c);
    var b := SpuStep(a, c);
    OneStep(b, c);
    AloneOn(s, c, 1, 1);
    AloneOn(s, c, 2, 1);
    hide Alone, Entered;
  }

  lemma ReloadsAndLocks(s: State, q: nat, c: nat)
    requires At(s, q) && c < QUEUES && s.counts[q] > 0 && !s.lineReserved
    ensures SpuFits(s) && Dealt(s, Alone(s, c, 8), q) && Entered(s, c, 8) == [q]
  {
    hide Alone, Entered, SpuFits, SpuStep;
    Reloads(s, q, c);
    LocksAndUnlocks(Alone(s, c, 3), q, c);
    AloneOn(s, c, 3, 5);
  }

  /** One queue is dealt with: entered if it is in use. */
  lemma OneQueue(s: State, q: nat, c: nat) returns (n: nat)
    requires At(s, q) && c < QUEUES
    ensures SpuFits(s) && q < QUEUES && Dealt(s, Alone(s, c, n), q) && Entered(s, c, n) == if s.counts[q] > 0 then [q] else []
  {
    AtFits(s, q);
    hide At, Dealt, Alone, Entered, SpuFits, SpuStep;
    if s.counts[q] <= 0 {
      Unused(s, q, c);
      n := 1;
    } else if s.lineReserved {
      LocksAndUnlocks(s, q, c);
      n := 5;
    } else {
      ReloadsAndLocks(s, q, c);
      n := 8;
    }
  }

  lemma AtFits(s: State, q: nat)
    requires At(s, q)
    ensures SpuFits(s) && q < QUEUES && |s.counts| == SLOTS
  {
  }

  /** The queue j places on from c. */
  function Place(c: nat, j: nat): (q: nat)
    ensures q < QUEUES
  {
    (c + j) % QUEUES
  }

  /** The queues in use, from the one that is j places on from c to the end of the round. */
  function InUseFrom(counts: seq<int>, c: nat, j: nat): seq<nat>
    requires |counts| == SLOTS && c < QUEUES && j <= QUEUES
    decreases QUEUES - j
  {
    if j == QUEUES then []
    else (if counts[Place(c, j)] > 0 then [Place(c, j)] else []) + InUseFrom(counts, c, j + 1)
  }

  lemma {:induction false} RestOfRound(s: State, c: nat, j: nat) returns (n: nat)
    requires c < QUEUES && j < QUEUES && At(s, Place(c, j)) && s.stop == c
    ensures var r := Alone(s, c, n);
            Same(s, r) && r.spu == Away && Entered(s, c, n) == InUseFrom(s.counts, c, j)
    decreases QUEUES - j
  {
    hide Alone, Entered, SpuStep, SpuFits, At, Same, Dealt, Place;
    var q := Place(c, j);
    AtFits(s, q);
    n := OneQueue(s, q, c);
    var r := Alone(s, c, n);
    Continues(s, r, c, j);
    if j + 1 < QUEUES {
      var m := RestOfRound(r, c, j + 1);
      AloneOn(s, c, n, m);
      SameOn(s, r, Alone(r, c, m));
      n := n + m;
    } else {
      assert InUseFrom(s.counts, c, QUEUES) == [];
    }
  }

  lemma Continues(s: State, r: State, c: nat, j: nat)
    requires c < QUEUES && j < QUEUES && s.stop == c && Dealt(s, r, Place(c, j))
    ensures Same(s, r) && r.stop == c && r.counts == s.counts && SpuFits(r)
    ensures if j + 1 < QUEUES then At(r, Place(c, j + 1)) else r.spu == Away
  {
    NextPlace(c, j);
  }

  lemma SameOn(s: State, t: State, r: State)
    requires Same(s, t) && Same(t, r)
    ensures Same(s, r)
  {
  }

  lemma NextPlace(c: nat, j: nat)
    requires c < 16 && j < 16
    ensures ((c + j) % 16 + 1) % 16 == (c + (j + 1)) % 16
    ensures (c + (j + 1)) % 16 == c <==> j == 15
  {
  }

  lemma Begins(s: State, c: nat)
    requires SpuFits(s) && s.spu == Away && c < QUEUES
    ensures var a := Alone(s, c, 2);
            && Same(s.(stop := c), a) && At(a, c) && Entered(s, c, 2) == []
  {
    OneStep(s, c);
    OneStep(SpuStep(s, c), c);
    AloneOn(s, c, 1, 1);
    hide Alone, Entered;
  }

  lemma StopIs(s: State, a: State, c: nat)
    requires Same(s.(stop := c), a)
    ensures a.stop == c && a.counts == s.counts && SpuFits(a)
  {
  }

  lemma {:induction false} RoundFrom(s: State, c: nat) returns (n: nat)
    requires SpuFits(s) && s.spu == Away && c < QUEUES
    ensures var r := Alone(s, c, n);
            r.spu == Away && r.counts == s.counts && Entered(s, c, n) == InUseFrom(s.counts, c, 0)
  {
    hide Alone, Entered, Enters, SpuStep, InUseFrom, SpuFits, At, Same, Place;
    Begins(s, c);
    var a := Alone(s, c, 2);
    FirstPlace(c);
    StopIs(s, a, c);
    var m := RestOfRound(a, c, 0);
    SameCounts(a, Alone(a, c, m));
    AloneOn(s, c, 2, m);
    n := 2 + m;
  }

  lemma FirstPlace(c: nat)
    requires c < QUEUES
    ensures Place(c, 0) == c
  {
  }

  lemma SameCounts(s: State, r: State)
    requires Same(s, r)
    ensures r.counts == s.counts
  {
  }

  /** A round from queue c, when the SPU is away and nobody interferes: it enters exactly the queues with a
      positive count, one after the other from c on, and leaves every count as it was. */
  lemma {:induction false} RoundEntersAll(run: seq<Action>, c: nat) returns (n: nat)
    requires c < QUEUES
    ensures var s := After(run);
            && SpuFits(s)
            && (s.spu == Away ==>
                  var r := Alone(s, c, n);
                  r.spu == Away && r.counts == s.counts && Entered(s, c, n) == InUseFrom(s.counts, c, 0))
  {
    var s := After(run);
    InvFits(s);
    hide After, Inv, ServerFits, SpuFits, Alone, Entered, InUseFrom, Tables, HeldOk, CopiesOk;
    n := 0;
    if s.spu == Away {
      n := RoundFrom(s, c);
    }
  }
}
