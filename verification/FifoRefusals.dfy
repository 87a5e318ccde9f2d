/** Commands that a handler cannot process at the moment: they stay where they are, are not counted, and
    are the next to be met. */
module FifoRefusals {
  import opened FifoFormat
  import opened CommandFifo
  import opened FifoRuns

  /** The SPU looks at a visible command, and its handler processes it; a jump is always taken. */
  ghost predicate Accepts(s: State, e: Action) {
    && e.SpuMoves? && s.pc == Retry && Visible(s) && Pending(s) != []
    && (!e.refuses || Pending(s)[0].op == JUMP)
  }

  /** It looks at a visible command other than a jump, and the handler refuses. */
  ghost predicate Refuses(s: State, e: Action) {
    && e.SpuMoves? && s.pc == Retry && Visible(s) && Pending(s) != []
    && e.refuses && Pending(s)[0].op != JUMP
  }

  /** An accepting look completes the next published command, a refusing one changes nothing and gives
      up, and every other step completes nothing. */
  lemma WhatCompletes(s: State, e: Action)
    requires Inv(s) && Allowed(s, e)
    ensures var r := Apply(s, e);
            && (Accepts(s, e) ==> r.done == s.done + [Pending(s)[0]] && r.rptr == Next(s.rptr, Pending(s)[0])
                                  && (r.pc == Update || r.pc == JumpUpdate))
            && (Refuses(s, e) ==> r == s.(pc := Idle))
            && (!Accepts(s, e) ==> r.done == s.done)
  {
    if e.SpuMoves? && s.pc == Retry && Visible(s) {
      WindowShowsNext(s);
      NextIsHeld(s);
      hide Inv, Visible, DecodeWindow, DecodeAt, Holds;
    } else {
      hide Inv, Visible, DecodeWindow;
    }
  }

  ghost function Accepted(s: State, run: seq<Action>): nat {
    if run == [] then 0
    else
      var front := run[..|run| - 1];
      Accepted(s, front) + if Accepts(After(s, front), run[|run| - 1]) then 1 else 0
  }

  /** In every run as many commands are completed as looks accepted one: the first that many of those
      that were published. */
  lemma {:induction false} CompletedAreAccepted(s: State, run: seq<Action>)
    requires Fresh(s) && Legal(s, run)
    ensures var r := After(s, run);
            Accepted(s, run) <= |r.published| && r.done == r.published[..Accepted(s, run)]
    decreases |run|
  {
    RunKeeps(s, run);
    if run != [] {
      var front, e := run[..|run| - 1], run[|run| - 1];
      LegalFront(s, run);
      CompletedAreAccepted(s, front);
      RunKeeps(s, front);
      WhatCompletes(After(s, front), e);
      hide Accepts, Apply, Allowed, Legal, SnapshotOk, WindowAgrees, Layout;
    }
  }

  /** Since t, when the next command was c: it still is, and nothing has moved. */
  ghost predicate StillNext(t: State, r: State) {
    && r.done == t.done && r.read == t.read && t.published <= r.published
    && r.pc != Update && r.pc != JumpUpdate
  }

  lemma StillNextOn(t: State, s: State, e: Action)
    requires Inv(s) && Allowed(s, e) && StillNext(t, s) && !Accepts(s, e)
    ensures StillNext(t, Apply(s, e))
  {
    WhatCompletes(s, e);
    if e.SpuMoves? && s.pc == Retry && Visible(s) {
      WindowShowsNext(s);
    }
    hide Inv, Visible, DecodeWindow, DecodeAt, Accepts, Refuses;
  }

  /** After a refusal the pointers stand still until a look accepts, and every look in between, whatever
      client and SPU do, sees the command that was refused. */
  lemma {:induction false} RefusedComesAgain(s: State, run: seq<Action>, k: nat, m: nat)
    requires Fresh(s) && Legal(s, run) && k < m <= |run| && Refuses(After(s, run[..k]), run[k])
    requires forall j :: k < j < m ==> !Accepts(After(s, run[..j]), run[j])
    ensures var t, r := After(s, run[..k]), After(s, run[..m]);
            && After(s, run[..k + 1]).pc == Idle && r.done == t.done && r.read == t.read
            && (r.pc == Retry && Visible(r) ==> DecodeWindow(r) == DecodeWindow(t) == Pending(t)[0])
  {
    SinceRefusal(s, run, k, m);
    var t, r := After(s, run[..k]), After(s, run[..m]);
    PartIsLegal(s, run, k);
    PartIsLegal(s, run, m);
    RunKeeps(s, run[..k]);
    RunKeeps(s, run[..m]);
    WindowShowsNext(t);
    if r.pc == Retry && Visible(r) {
      WindowShowsNext(r);
      hide Visible, DecodeWindow, DecodeAt, Layout, WindowAgrees, SnapshotOk;
      assert r.published[|r.done|] == t.published[|t.done|];
    }
  }

  lemma PartIsLegal(s: State, run: seq<Action>, k: nat)
    requires Legal(s, run) && k <= |run|
    ensures Legal(s, run[..k])
  {
    hide Allowed;
    forall j | 0 <= j < k ensures Allowed(After(s, run[..k][..j]), run[..k][j]) {
      assert run[..k][..j] == run[..j];
    }
  }

  lemma AfterNext(s: State, run: seq<Action>, j: nat)
    requires j < |run|
    ensures After(s, run[..j + 1]) == Apply(After(s, run[..j]), run[j])
  {
    hide Apply;
    assert run[..j + 1][..j] == run[..j];
  }

  lemma {:induction false} SinceRefusal(s: State, run: seq<Action>, k: nat, m: nat)
    requires Fresh(s) && Legal(s, run) && k < m <= |run| && Refuses(After(s, run[..k]), run[k])
    requires forall j :: k < j < m ==> !Accepts(After(s, run[..j]), run[j])
    ensures StillNext(After(s, run[..k]), After(s, run[..m])) && After(s, run[..k + 1]).pc == Idle
    decreases m
  {
    hide Inv, Accepts, Refuses, Allowed, Fresh, StillNext, Apply, After;
    var j := m - 1;
    AfterNext(s, run, j);
    PartIsLegal(s, run, j);
    RunKeeps(s, run[..j]);
    assert Allowed(After(s, run[..j]), run[j]);
    hide Legal;
    if j > k {
      SinceRefusal(s, run, k, j);
      StillNextOn(After(s, run[..k]), After(s, run[..j]), run[j]);
    } else {
      RefusalItself(After(s, run[..k]), run[k]);
    }
  }

  lemma RefusalItself(t: State, e: Action)
    requires Inv(t) && Allowed(t, e) && Refuses(t, e)
    ensures StillNext(t, Apply(t, e)) && Apply(t, e).pc == Idle
  {
    WhatCompletes(t, e);
    hide Inv, Apply, Accepts;
  }
}
