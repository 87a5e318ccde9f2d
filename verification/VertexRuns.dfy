/** Any sequence of glBegin, vertices and glEnd, against what a reader of the calls expects: which
    vertices belong together, what they draw, and which errors are raised. And which primitives are not
    what their names say. */
module VertexRuns {
  import opened VertexAssembly

  datatype Call<V> = BeginCall(mode: int) | VertexCall(v: V) | EndCall

  /** What has been asked for: the open primitive and its vertices, the pieces of those before it, and the
      errors. */
  datatype Asked<V> = Asked(open: bool, mode: int, vs: seq<V>, before: seq<Drawn<V>>, errors: seq<Error>)

  /** A loop is closed from its last vertex to its first. */
  function Closing<V>(mode: int, vs: seq<V>): seq<Drawn<V>> {
    if mode == LINE_LOOP && vs != [] then [OneLine(vs, |vs| - 1, 0)] else []
  }

  /** A valid glBegin starts a primitive and breaks off an open one; an invalid one changes nothing; both
      complain when one is open. glEnd complains when none is. */
  function Ask<V>(a: Asked<V>, c: Call<V>): Asked<V>
    requires a.open ==> Primitive(a.mode)
  {
    match c
    case BeginCall(mode) =>
      var b := if a.open then a.(errors := a.errors + [NestedBegin]) else a;
      if !Primitive(mode) then b.(errors := b.errors + [InvalidState])
      else b.(open := true, mode := mode, vs := [], before := a.before + if a.open then Pieces(a.mode, a.vs) else [])
    case VertexCall(v) => a.(vs := a.vs + [v])
    case EndCall =>
      if !a.open then a.(errors := a.errors + [EndWithoutBegin])
      else a.(open := false, vs := [], before := a.before + Pieces(a.mode, a.vs) + Closing(a.mode, a.vs))
  }

  ghost function AskedFor<V(!new)>(calls: seq<Call<V>>): (a: Asked<V>)
    ensures a.open ==> Primitive(a.mode)
  {
    if calls == [] then Asked(false, 0, [], [], []) else Ask(AskedFor(calls[..|calls| - 1]), calls[|calls| - 1])
  }

  /** Vertices come between glBegin and glEnd only. */
  ghost predicate Legal<V(!new)>(calls: seq<Call<V>>)
    decreases |calls|
  {
    calls == [] ||
    (Legal(calls[..|calls| - 1]) && (calls[|calls| - 1].VertexCall? ==> AskedFor(calls[..|calls| - 1]).open))
  }

  /** What the machine does with a call. */
  function Do<V>(m: Machine<V>, c: Call<V>): Machine<V>
    requires m.state < STATES && (c.VertexCall? ==> Begun(m))
  {
    match c
    case BeginCall(mode) => Begin(m, mode)
    case VertexCall(v) => Feed(m, v)
    case EndCall => End(m)
  }

  /** The machine has drawn and reported what was asked for so far. */
  ghost predicate Serves<V(!new)>(a: Asked<V>, m: Machine<V>)
    requires a.open ==> Primitive(a.mode)
  {
    && m.state < STATES && (m.state >= 0 <==> a.open) && m.errors == a.errors
    && (if a.open then Holding(a.mode, a.vs, m) && m.drawn == a.before + Pieces(a.mode, a.vs) else m.drawn == a.before)
  }

  lemma BeginServes<V(!new)>(a: Asked<V>, m: Machine<V>, mode: int)
    requires (a.open ==> Primitive(a.mode)) && Serves(a, m)
    ensures Serves(Ask(a, BeginCall(mode)), Begin(m, mode))
  {
    TenPrimitives(mode);
    if Primitive(mode) {
      assert Pieces<V>(mode, []) == [];
      var b := Ask(a, BeginCall(mode));
      assert b.before + [] == b.before;
      hide Pieces;
    } else {
      InvalidKeeps(a, m, mode);
    }
  }

  lemma InvalidKeeps<V(!new)>(a: Asked<V>, m: Machine<V>, mode: int)
    requires (a.open ==> Primitive(a.mode)) && Serves(a, m) && !Primitive(mode) && !Nameable(mode)
    ensures Serves(Ask(a, BeginCall(mode)), Begin(m, mode))
  {
    hide Pieces;
  }

  lemma VertexServes<V(!new)>(a: Asked<V>, m: Machine<V>, v: V)
    requires a.open && Primitive(a.mode) && Serves(a, m)
    ensures Begun(m) && Serves(Ask(a, VertexCall(v)), Feed(m, v))
  {
    var vs := a.vs + [v];
    assert vs[..|vs| - 1] == a.vs;
    FeedDraws(a.mode, vs, m);
    PiecesStep(a.mode, vs);
    FeedKeepsErrors(m, v);
    hide Pieces, Completed, Holding, Feed;
  }

  lemma FeedKeepsErrors<V(!new)>(m: Machine<V>, v: V)
    requires Begun(m)
    ensures Feed(m, v).errors == m.errors && 0 <= Feed(m, v).state < STATES
  {
  }

  lemma EndServes<V(!new)>(a: Asked<V>, m: Machine<V>)
    requires (a.open ==> Primitive(a.mode)) && Serves(a, m)
    ensures Serves(Ask(a, EndCall), End(m))
  {
    if a.open {
      EndCloses(a.mode, a.vs, m);
      hide Pieces, Holding, End;
    }
  }

  ghost function After<V(!new)>(m: Machine<V>, calls: seq<Call<V>>): (r: Machine<V>)
    requires m.state == -1 && m.drawn == [] && m.errors == [] && Legal(calls)
    ensures Serves(AskedFor(calls), r)
    decreases |calls|
  {
    if calls == [] then m
    else
      var front, c := calls[..|calls| - 1], calls[|calls| - 1];
      var b := After(m, front);
      Served(AskedFor(front), b, c);
      Do(b, c)
  }

  lemma Served<V(!new)>(a: Asked<V>, m: Machine<V>, c: Call<V>)
    requires (a.open ==> Primitive(a.mode)) && Serves(a, m) && (c.VertexCall? ==> a.open)
    ensures (c.VertexCall? ==> Begun(m)) && Serves(Ask(a, c), Do(m, c))
  {
    hide Serves, Ask, Begin, Feed, End;
    match c
    case BeginCall(mode) => BeginServes(a, m, mode);
    case VertexCall(v) => VertexServes(a, m, v);
    case EndCall => EndServes(a, m);
  }

  /** Whatever is called in whatever order: the lines and triangles drawn are those of the primitives, one
      after the other, with those of the open one as far as its vertices go; and the errors are those of
      the calls that deserve them. */
  lemma {:induction false} AnyCallsAreServed<V(!new)>(m: Machine<V>, calls: seq<Call<V>>)
    requires m.state == -1 && m.drawn == [] && m.errors == [] && Legal(calls)
    ensures var a, r := AskedFor(calls), After(m, calls);
            && r.errors == a.errors && (r.state >= 0 <==> a.open)
            && r.drawn == a.before + if a.open then Pieces(a.mode, a.vs) else []
  {
    hide After, AskedFor, Pieces, Holding;
  }

  // ---- primitives that are not what their names say ----

  /** A triangle strip, every other triangle turned. */
  function Strip<V>(vs: seq<V>): seq<Drawn<V>> {
    seq(if |vs| < 2 then 0 else |vs| - 2, k requires 0 <= k < |vs| - 2 =>
      if k % 2 == 0 then OneTriangle(vs, k, k + 1, k + 2) else OneTriangle(vs, k + 1, k, k + 2))
  }

  /** A quad strip: vertices 2k, 2k + 1, 2k + 3 and 2k + 2 make a quad. */
  function QuadStrip<V>(vs: seq<V>): seq<Drawn<V>> {
    seq(if |vs| < 2 then 0 else 2 * (|vs| / 2 - 1), k requires 0 <= k < 2 * (|vs| / 2 - 1) =>
      var i := 2 * (k / 2);
      if k % 2 == 0 then OneTriangle(vs, i, i + 1, i + 3) else OneTriangle(vs, i + 3, i + 2, i))
  }

  /** A triangle strip comes out right only if it has fewer than two vertices, or three that are the same. */
  lemma StripsAreWrong<V(!new)>(vs: seq<V>)
    ensures Pieces(TRIANGLE_STRIP, vs) == Strip(vs) <==> |vs| < 2 || (|vs| == 3 && vs[0] == vs[1] == vs[2])
  {
    var p, q := AsStrip(vs), Strip(vs);
    if |vs| == 3 {
      assert vs[2..] == [vs[2]] && Triples(vs[2..]) == [];
      assert p == [OneTriangle(vs, 0, 0, 1)] && q == [OneTriangle(vs, 0, 1, 2)];
      assert p == q <==> p[0] == q[0];
    } else if |vs| >= 2 {
      assert |p| == 1 + (|vs| - 2) / 3 && |q| == |vs| - 2;
    }
  }

  /** A polygon only if it has at most three. */
  lemma PolygonsAreWrong<V(!new)>(vs: seq<V>)
    ensures Pieces(POLYGON, vs) == Fan(vs) <==> |vs| <= 3
  {
    if |vs| == 3 {
      assert Triples(vs) == [OneTriangle(vs, 0, 1, 2)];
    } else if |vs| > 3 {
      assert |Triples(vs)| == |vs| / 3 && |Fan(vs)| == |vs| - 2;
    }
  }

  /** A quad strip only if it has fewer than four, or fewer than six with the third and the fourth the same. */
  lemma QuadStripsAreWrong<V(!new)>(vs: seq<V>)
    ensures Pieces(QUAD_STRIP, vs) == QuadStrip(vs) <==> |vs| < 4 || (|vs| < 6 && vs[2] == vs[3])
  {
    var p, q := Halves(vs), QuadStrip(vs);
    if 4 <= |vs| < 6 {
      assert p == [OneTriangle(vs, 0, 1, 2), OneTriangle(vs, 2, 3, 0)];
      assert q == [OneTriangle(vs, 0, 1, 3), OneTriangle(vs, 3, 2, 0)];
      assert p == q <==> p[0] == q[0] && p[1] == q[1];
    } else if |vs| >= 6 {
      assert |p| == 2 * (|vs| / 4) && |q| == 2 * (|vs| / 2 - 1);
    }
  }
}
