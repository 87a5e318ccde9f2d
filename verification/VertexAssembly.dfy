/** The table-driven assembly of vertices into lines and triangles: one register per attribute with
    room for four vertices, rearranged at every vertex as the table says. */
module VertexAssembly {
  /** An element of a register: an attribute of some vertex, or nought. All twelve attribute
      registers are rearranged alike, so one register of whole vertices stands for them. */
  datatype Cell<V> = Nought | Vertex(v: V)
  datatype Register<V> = Register(a0: Cell<V>, a1: Cell<V>, a2: Cell<V>, a3: Cell<V>)

  datatype Source = A0 | A1 | A2 | A3 | B0 | Zero
  datatype Shuffle = Shuffle(e0: Source, e1: Source, e2: Source, e3: Source)
  datatype Add = Nothing | AddLine | AddTriangle | AddPoint | AddTriangle2
  datatype Row = Row(insert: nat, next: nat, add: Add, end: nat)

  function Shuffles(i: nat): Shuffle {
    match i
    case 0 => Shuffle(B0, B0, B0, B0)
    case 1 => Shuffle(A1, B0, B0, A3)
    case 2 => Shuffle(A1, A3, Zero, Zero)
    case 3 => Shuffle(A1, A2, B0, A3)
    case 4 => Shuffle(A2, A1, B0, A3)
    case 5 => Shuffle(A0, A2, B0, A3)
    case 6 => Shuffle(A1, A2, A3, B0)
    case 7 => Shuffle(A0, A2, B0, A3)
    case 8 => Shuffle(A0, A1, A3, Zero)
    case 9 => Shuffle(A2, A1, A3, A0)
    case 10 => Shuffle(A2, A3, A0, A1)
    case _ => Shuffle(A2, A1, B0, A0)
  }

  const STATES: nat := 32

  /** The table, by state; the first ten states are the primitives that glBegin can name. */
  function Table(state: nat): (r: Row)
    requires state < STATES
    ensures r.next < STATES && r.insert < 12 && r.end < 12
  {
    match state
    case 0 => Row(0, 0, AddPoint, 0)
    case 1 => Row(0, 10, Nothing, 0)
    case 2 => Row(0, 11, Nothing, 0)
    case 3 => Row(0, 12, Nothing, 0)
    case 4 => Row(0, 13, Nothing, 0)
    case 5 => Row(0, 14, Nothing, 0)
    case 6 => Row(0, 18, Nothing, 0)
    case 7 => Row(0, 21, Nothing, 0)
    case 8 => Row(0, 24, Nothing, 0)
    case 9 => Row(0, 27, Nothing, 0)
    case 10 => Row(1, 1, AddLine, 0)
    case 11 => Row(1, 11, AddLine, 2)
    case 12 => Row(1, 12, AddLine, 0)
    case 13 => Row(3, 14, Nothing, 0)
    case 14 => Row(3, 4, AddTriangle, 0)
    case 15 => Row(3, 16, Nothing, 0)
    case 16 => Row(3, 17, AddTriangle, 0)
    case 17 => Row(4, 16, AddTriangle, 0)
    case 18 => Row(3, 19, Nothing, 0)
    case 19 => Row(3, 20, AddTriangle, 0)
    case 20 => Row(5, 20, AddTriangle, 0)
    case 21 => Row(6, 22, Nothing, 0)
    case 22 => Row(6, 23, Nothing, 0)
    case 23 => Row(6, 30, AddTriangle2, 0)
    case 24 => Row(6, 22, Nothing, 0)
    case 25 => Row(6, 25, Nothing, 0)
    case 26 => Row(6, 31, AddTriangle2, 0)
    case 27 => Row(3, 28, Nothing, 0)
    case 28 => Row(3, 4, AddTriangle, 0)
    case 29 => Row(7, 29, AddTriangle, 8)
    case 30 => Row(10, 7, AddTriangle, 0)
    case _ => Row(9, 25, AddTriangle, 0)
  }

  function Take<V>(from: Source, r: Register<V>, v: Cell<V>): Cell<V> {
    match from
    case A0 => r.a0
    case A1 => r.a1
    case A2 => r.a2
    case A3 => r.a3
    case B0 => v
    case Zero => Nought
  }

  function ShuffleIn<V>(s: Shuffle, r: Register<V>, v: Cell<V>): Register<V> {
    Register(Take(s.e0, r, v), Take(s.e1, r, v), Take(s.e2, r, v), Take(s.e3, r, v))
  }

  /** What is handed on to be drawn: the vertices that the register holds at the time. */
  datatype Drawn<V> = Line(a: Cell<V>, b: Cell<V>) | Triangle(a: Cell<V>, b: Cell<V>, c: Cell<V>)

  datatype Error = NestedBegin | InvalidState | EndWithoutBegin

  datatype Machine<V> = Machine(state: int, r: Register<V>, drawn: seq<Drawn<V>>, errors: seq<Error>)

  predicate Begun<V>(m: Machine<V>) {
    0 <= m.state < STATES
  }

  function DrawLine<V>(m: Machine<V>): Machine<V> {
    m.(drawn := m.drawn + [Line(m.r.a0, m.r.a1)])
  }

  function DrawTriangle<V>(m: Machine<V>): Machine<V> {
    m.(drawn := m.drawn + [Triangle(m.r.a0, m.r.a1, m.r.a2)])
  }

  /** imp_vertex. Points are not drawn. */
  function Feed<V>(m: Machine<V>, v: V): (n: Machine<V>)
    requires Begun(m)
    ensures Begun(n)
  {
    var row := Table(m.state);
    var n := m.(r := ShuffleIn(Shuffles(row.insert), m.r, Vertex(v)));
    match row.add
    case AddLine => DrawLine(n).(state := row.next)
    case AddTriangle => DrawTriangle(n).(state := row.next)
    case AddTriangle2 =>
      var row2 := Table(row.next);
      DrawTriangle(DrawTriangle(n).(r := ShuffleIn(Shuffles(row2.insert), n.r, Vertex(v)))).(state := row2.next)
    case _ => n.(state := row.next)
  }

  predicate Nameable(state: int) {
    0 <= state < STATES && Table(state).insert == 0
  }

  /** imp_glBegin: a nested one is reported, but begins. */
  function Begin<V>(m: Machine<V>, state: int): Machine<V> {
    var n := if m.state >= 0 then m.(errors := m.errors + [NestedBegin]) else m;
    if Nameable(state) then n.(state := state) else n.(errors := n.errors + [InvalidState])
  }

  /** imp_glEnd, closing a line loop. */
  function End<V>(m: Machine<V>): Machine<V>
    requires m.state < STATES
  {
    if m.state < 0 then m.(errors := m.errors + [EndWithoutBegin], state := -1)
    else
      var row := Table(m.state);
      if row.end == 0 then m.(state := -1)
      else
        var n := m.(r := ShuffleIn(Shuffles(row.end), m.r, Nought));
        match row.add
        case AddLine => DrawLine(n).(state := -1)
        case AddTriangle => DrawTriangle(n).(state := -1)
        case _ => n.(state := -1)
  }

  class Assembler<V(0)> {
    var state: int
    var r: Register<V>
    var drawn: seq<Drawn<V>>
    var errors: seq<Error>

    function View(): Machine<V>
      reads this
    {
      Machine(state, r, drawn, errors)
    }

    constructor (r: Register<V>)
      ensures View() == Machine(-1, r, [], [])
    {
      state, this.r, drawn, errors := -1, r, [], [];
    }

    method GlBegin(mode: int)
      modifies this
      ensures View() == Begin(old(View()), mode)
    {
      if state >= 0 {
        errors := errors + [NestedBegin];
      }
      if !(0 <= mode < STATES && Table(mode).insert == 0) {
        errors := errors + [InvalidState];
        return;
      }
      state := mode;
    }

    method GlVertex(v: V)
      requires Begun(View())
      modifies this
      ensures View() == Feed(old(View()), v) && Begun(View())
    {
      var row := Table(state);
      r := ShuffleIn(Shuffles(row.insert), r, Vertex(v));
      match row.add {
        case AddLine =>
          drawn := drawn + [Line(r.a0, r.a1)];
        case AddTriangle2 =>
          drawn := drawn + [Triangle(r.a0, r.a1, r.a2)];
          state := row.next;
          row := Table(state);
          r := ShuffleIn(Shuffles(row.insert), r, Vertex(v));
          drawn := drawn + [Triangle(r.a0, r.a1, r.a2)];
        case AddTriangle =>
          drawn := drawn + [Triangle(r.a0, r.a1, r.a2)];
        case _ =>
      }
      state := row.next;
    }

    method GlEnd()
      requires state < STATES
      modifies this
      ensures View() == End(old(View()))
    {
      if state < 0 {
        errors := errors + [EndWithoutBegin];
      } else {
        var row := Table(state);
        if row.end != 0 {
          r := ShuffleIn(Shuffles(row.end), r, Nought);
          match row.add {
            case AddLine => drawn := drawn + [Line(r.a0, r.a1)];
            case AddTriangle => drawn := drawn + [Triangle(r.a0, r.a1, r.a2)];
            case _ =>
          }
        }
      }
      state := -1;
    }
  }

  // ---- the primitives ----

  const POINTS: int := 0
  const LINES: int := 1
  const LINE_LOOP: int := 2
  const LINE_STRIP: int := 3
  const TRIANGLES: int := 4
  const TRIANGLE_STRIP: int := 5
  const TRIANGLE_FAN: int := 6
  const QUADS: int := 7
  const QUAD_STRIP: int := 8
  const POLYGON: int := 9

  /** glBegin accepts the ten primitives and nothing else. */
  lemma TenPrimitives(state: int)
    ensures Nameable(state) <==> 0 <= state <= 9
  {
  }

  function OneTriangle<V>(vs: seq<V>, i: int, j: int, k: int): Drawn<V>
    requires 0 <= i < |vs| && 0 <= j < |vs| && 0 <= k < |vs|
  {
    Triangle(Vertex(vs[i]), Vertex(vs[j]), Vertex(vs[k]))
  }

  function OneLine<V>(vs: seq<V>, i: int, j: int): Drawn<V>
    requires 0 <= i < |vs| && 0 <= j < |vs|
  {
    Line(Vertex(vs[i]), Vertex(vs[j]))
  }

  predicate Primitive(mode: int) {
    POINTS <= mode <= POLYGON
  }

  function Pairs<V>(vs: seq<V>): seq<Drawn<V>> {
    seq(|vs| / 2, k requires 0 <= k < |vs| / 2 => OneLine(vs, 2 * k, 2 * k + 1))
  }

  function Chain<V>(vs: seq<V>): seq<Drawn<V>> {
    seq(if vs == [] then 0 else |vs| - 1, k requires 0 <= k < |vs| - 1 => OneLine(vs, k, k + 1))
  }

  function Triples<V>(vs: seq<V>): seq<Drawn<V>> {
    seq(|vs| / 3, k requires 0 <= k < |vs| / 3 => OneTriangle(vs, 3 * k, 3 * k + 1, 3 * k + 2))
  }

  function Fan<V>(vs: seq<V>): seq<Drawn<V>> {
    seq(if |vs| < 2 then 0 else |vs| - 2, k requires 0 <= k < |vs| - 2 => OneTriangle(vs, 0, k + 1, k + 2))
  }

  /** Two triangles for every four vertices. */
  function Halves<V>(vs: seq<V>): seq<Drawn<V>> {
    seq(2 * (|vs| / 4), k requires 0 <= k < 2 * (|vs| / 4) =>
      var i := 4 * (k / 2);
      if k % 2 == 0 then OneTriangle(vs, i, i + 1, i + 2) else OneTriangle(vs, i + 2, i + 3, i))
  }

  /** What the table makes of a triangle strip: its first two vertices give a triangle without area, and
      the rest is taken as separate triangles. */
  function AsStrip<V>(vs: seq<V>): seq<Drawn<V>> {
    if |vs| < 2 then [] else [OneTriangle(vs, 0, 0, 1)] + Triples(vs[2..])
  }

  /** The lines or triangles of a list of vertices before glEnd. Quad strips come out as quads and
      polygons as triangles. */
  function Pieces<V>(mode: int, vs: seq<V>): seq<Drawn<V>>
    requires Primitive(mode)
  {
    if mode == POINTS then []
    else if mode == LINES then Pairs(vs)
    else if mode == LINE_LOOP || mode == LINE_STRIP then Chain(vs)
    else if mode == TRIANGLES || mode == POLYGON then Triples(vs)
    else if mode == TRIANGLE_STRIP then AsStrip(vs)
    else if mode == TRIANGLE_FAN then Fan(vs)
    else Halves(vs)
  }

  /** What the last vertex completes. */
  function Completed<V>(mode: int, vs: seq<V>): seq<Drawn<V>>
    requires Primitive(mode) && vs != []
  {
    var n := |vs|;
    if mode == POINTS then []
    else if mode == LINES then if n % 2 == 0 then [OneLine(vs, n - 2, n - 1)] else []
    else if mode == LINE_LOOP || mode == LINE_STRIP then if n >= 2 then [OneLine(vs, n - 2, n - 1)] else []
    else if mode == TRIANGLES || mode == POLYGON then if n % 3 == 0 then [OneTriangle(vs, n - 3, n - 2, n - 1)] else []
    else if mode == TRIANGLE_STRIP then
      if n == 2 then [OneTriangle(vs, 0, 0, 1)] else if n > 2 && n % 3 == 2 then [OneTriangle(vs, n - 3, n - 2, n - 1)] else []
    else if mode == TRIANGLE_FAN then if n >= 3 then [OneTriangle(vs, 0, n - 2, n - 1)] else []
    else if n % 4 == 0 then [OneTriangle(vs, n - 4, n - 3, n - 2), OneTriangle(vs, n - 2, n - 1, n - 4)]
    else []
  }

  lemma PairsStep<V>(vs: seq<V>)
    requires vs != []
    ensures Pairs(vs) == Pairs(vs[..|vs| - 1]) + Completed(LINES, vs)
  {
  }

  lemma ChainStep<V>(vs: seq<V>)
    requires vs != []
    ensures Chain(vs) == Chain(vs[..|vs| - 1]) + Completed(LINE_STRIP, vs)
  {
  }

  lemma TriplesStep<V>(vs: seq<V>)
    requires vs != []
    ensures Triples(vs) == Triples(vs[..|vs| - 1]) + Completed(TRIANGLES, vs)
  {
  }

  lemma FanPiecesStep<V>(vs: seq<V>)
    requires vs != []
    ensures Fan(vs) == Fan(vs[..|vs| - 1]) + Completed(TRIANGLE_FAN, vs)
  {
  }

  lemma StripParts<V>(vs: seq<V>)
    requires |vs| > 2
    ensures AsStrip(vs) == [OneTriangle(vs, 0, 0, 1)] + Triples(vs[2..])
    ensures AsStrip(vs[..|vs| - 1]) == [OneTriangle(vs, 0, 0, 1)] + Triples(vs[..|vs| - 1][2..])
  {
    hide Triples;
  }

  lemma StripStep<V>(vs: seq<V>)
    requires vs != []
    ensures AsStrip(vs) == AsStrip(vs[..|vs| - 1]) + Completed(TRIANGLE_STRIP, vs)
  {
    var n := |vs|;
    if n > 2 {
      var rest := vs[2..];
      assert rest[..n - 3] == vs[..n - 1][2..];
      TriplesStep(rest);
      hide Triples;
      assert n % 3 == 2 <==> (n - 2) % 3 == 0;
      StripParts(vs);
    }
  }

  lemma HalvesStep<V>(vs: seq<V>)
    requires vs != []
    ensures Halves(vs) == Halves(vs[..|vs| - 1]) + Completed(QUADS, vs)
  {
    var n := |vs|;
    var d := vs[..n - 1];
    if n % 4 == 0 {
      assert (n - 1) / 4 == n / 4 - 1 && 4 * (n / 4 - 1) == n - 4;
      var k := 2 * (n / 4);
      assert Halves(vs)[..k - 2] == Halves(d);
      assert Halves(vs)[k - 2] == OneTriangle(vs, n - 4, n - 3, n - 2);
      assert Halves(vs)[k - 1] == OneTriangle(vs, n - 2, n - 1, n - 4);
    } else {
      assert (n - 1) / 4 == n / 4;
    }
  }

  lemma PiecesStep<V>(mode: int, vs: seq<V>)
    requires Primitive(mode) && vs != []
    ensures Pieces(mode, vs) == Pieces(mode, vs[..|vs| - 1]) + Completed(mode, vs)
  {
    PairsStep(vs);
    ChainStep(vs);
    TriplesStep(vs);
    FanPiecesStep(vs);
    HalvesStep(vs);
    StripStep(vs);
    assert mode == LINE_LOOP ==> Completed(mode, vs) == Completed(LINE_STRIP, vs);
    assert mode == POLYGON ==> Completed(mode, vs) == Completed(TRIANGLES, vs);
    assert mode == QUAD_STRIP ==> Completed(mode, vs) == Completed(QUADS, vs);
    assert mode == POINTS ==> Completed(mode, vs) == [];
    hide Pairs, Chain, Triples, Fan, Halves, AsStrip, Completed;
  }

  /** The state and the register when vs have come in. */
  ghost predicate Holding<V(!new)>(mode: int, vs: seq<V>, m: Machine<V>)
    requires Primitive(mode)
  {
    var n := |vs|;
    if n == 0 || mode == POINTS then m.state == mode
    else if mode == LINES then
      if n % 2 == 0 then m.state == LINES else m.state == 10 && m.r.a1 == Vertex(vs[n - 1])
    else if mode == LINE_LOOP || mode == LINE_STRIP then
      m.state == mode + 9 && m.r.a1 == Vertex(vs[n - 1]) && m.r.a3 == Vertex(vs[0])
    else if mode == TRIANGLES then
      if n % 3 == 0 then m.state == TRIANGLES
      else if n % 3 == 1 then m.state == 13 && m.r.a1 == m.r.a2 == Vertex(vs[n - 1])
      else m.state == 14 && m.r.a1 == Vertex(vs[n - 2]) && m.r.a2 == Vertex(vs[n - 1])
    else if mode == POLYGON then
      if n == 1 then m.state == 27 && m.r.a1 == m.r.a2 == Vertex(vs[0])
      else if n == 2 then m.state == 28 && m.r.a1 == Vertex(vs[0]) && m.r.a2 == Vertex(vs[1])
      else if n % 3 == 0 then m.state == TRIANGLES
      else if n % 3 == 1 then m.state == 13 && m.r.a1 == m.r.a2 == Vertex(vs[n - 1])
      else m.state == 14 && m.r.a1 == Vertex(vs[n - 2]) && m.r.a2 == Vertex(vs[n - 1])
    else if mode == TRIANGLE_STRIP then
      if n == 1 then m.state == 14 && m.r.a1 == m.r.a2 == Vertex(vs[0])
      else if n % 3 == 2 then m.state == TRIANGLES
      else if n % 3 == 0 then m.state == 13 && m.r.a1 == m.r.a2 == Vertex(vs[n - 1])
      else m.state == 14 && m.r.a1 == Vertex(vs[n - 2]) && m.r.a2 == Vertex(vs[n - 1])
    else if mode == TRIANGLE_FAN then
      if n == 1 then m.state == 18 && m.r.a1 == m.r.a2 == Vertex(vs[0])
      else if n == 2 then m.state == 19 && m.r.a1 == Vertex(vs[0]) && m.r.a2 == Vertex(vs[1])
      else m.state == 20 && m.r.a0 == Vertex(vs[0]) && m.r.a2 == Vertex(vs[n - 1])
    else
      if n % 4 == 0 then m.state == QUADS
      else if n % 4 == 1 then m.state == (if mode == QUAD_STRIP && n == 1 then 24 else 21) && m.r.a1 == m.r.a2 == m.r.a3 == Vertex(vs[n - 1])
      else if n % 4 == 2 then m.state == 22 && m.r.a1 == m.r.a2 == Vertex(vs[n - 2]) && m.r.a3 == Vertex(vs[n - 1])
      else m.state == 23 && m.r.a1 == Vertex(vs[n - 3]) && m.r.a2 == Vertex(vs[n - 2]) && m.r.a3 == Vertex(vs[n - 1])
  }

  /** glBegin and the vertices that follow. */
  ghost function Fed<V(!new)>(m: Machine<V>, mode: int, vs: seq<V>): (r: Machine<V>)
    requires Primitive(mode)
    ensures Begun(r)
  {
    if vs == [] then Begin(m, mode) else Feed(Fed(m, mode, vs[..|vs| - 1]), vs[|vs| - 1])
  }

  lemma LineStep<V(!new)>(mode: int, vs: seq<V>, m: Machine<V>)
    requires Primitive(mode) && mode <= LINE_STRIP && vs != [] && Holding(mode, vs[..|vs| - 1], m)
    ensures Begun(m) && Holding(mode, vs, Feed(m, vs[|vs| - 1]))
    ensures Feed(m, vs[|vs| - 1]).drawn == m.drawn + Completed(mode, vs)
  {
    var n := |vs|;
    assert n >= 2 ==> vs[..n - 1][n - 2] == vs[n - 2] && vs[..n - 1][0] == vs[0];
  }

  lemma TrianglesStep<V(!new)>(mode: int, vs: seq<V>, m: Machine<V>)
    requires (mode == TRIANGLES || mode == POLYGON) && vs != [] && Holding(mode, vs[..|vs| - 1], m)
    ensures Begun(m) && Holding(mode, vs, Feed(m, vs[|vs| - 1]))
    ensures Feed(m, vs[|vs| - 1]).drawn == m.drawn + Completed(mode, vs)
  {
  }

  lemma StripsStep<V(!new)>(vs: seq<V>, m: Machine<V>)
    requires vs != [] && Holding(TRIANGLE_STRIP, vs[..|vs| - 1], m)
    ensures Begun(m) && Holding(TRIANGLE_STRIP, vs, Feed(m, vs[|vs| - 1]))
    ensures Feed(m, vs[|vs| - 1]).drawn == m.drawn + Completed(TRIANGLE_STRIP, vs)
  {
  }

  lemma FanStep<V(!new)>(vs: seq<V>, m: Machine<V>)
    requires vs != [] && Holding(TRIANGLE_FAN, vs[..|vs| - 1], m)
    ensures Begun(m) && Holding(TRIANGLE_FAN, vs, Feed(m, vs[|vs| - 1]))
    ensures Feed(m, vs[|vs| - 1]).drawn == m.drawn + Completed(TRIANGLE_FAN, vs)
  {
  }

  lemma QuadsStep<V(!new)>(mode: int, vs: seq<V>, m: Machine<V>)
    requires (mode == QUADS || mode == QUAD_STRIP) && vs != [] && Holding(mode, vs[..|vs| - 1], m)
    ensures Begun(m) && Holding(mode, vs, Feed(m, vs[|vs| - 1]))
    ensures Feed(m, vs[|vs| - 1]).drawn == m.drawn + Completed(mode, vs)
  {
    var n := |vs|;
    assert n % 4 == 0 ==> (n - 1) % 4 == 3;
    assert n % 4 == 1 ==> (n - 1) % 4 == 0;
    assert n % 4 == 2 ==> (n - 1) % 4 == 1;
    assert n % 4 == 3 ==> (n - 1) % 4 == 2;
  }

  /** One more vertex draws what it completes. */
  lemma FeedDraws<V(!new)>(mode: int, vs: seq<V>, m: Machine<V>)
    requires Primitive(mode) && vs != [] && Holding(mode, vs[..|vs| - 1], m)
    ensures Begun(m) && Holding(mode, vs, Feed(m, vs[|vs| - 1]))
    ensures Feed(m, vs[|vs| - 1]).drawn == m.drawn + Completed(mode, vs)
  {
    hide Completed, Holding, Feed;
    if mode <= LINE_STRIP {
      LineStep(mode, vs, m);
    } else if mode == TRIANGLES || mode == POLYGON {
      TrianglesStep(mode, vs, m);
    } else if mode == TRIANGLE_STRIP {
      StripsStep(vs, m);
    } else if mode == TRIANGLE_FAN {
      FanStep(vs, m);
    } else {
      QuadsStep(mode, vs, m);
    }
  }

  lemma BeginDraws<V(!new)>(m: Machine<V>, mode: int)
    requires Primitive(mode)
    ensures Holding(mode, [], Begin(m, mode)) && Begin(m, mode).drawn == m.drawn + Pieces(mode, [])
  {
    TenPrimitives(mode);
    assert Pieces<V>(mode, []) == [];
  }

  lemma {:induction false} FedDraws<V(!new)>(m: Machine<V>, mode: int, vs: seq<V>)
    requires Primitive(mode)
    ensures Holding(mode, vs, Fed(m, mode, vs)) && Fed(m, mode, vs).drawn == m.drawn + Pieces(mode, vs)
  {
    hide Pieces, Completed, Holding, Feed, Begin;
    if vs == [] {
      BeginDraws(m, mode);
    } else {
      FedDraws(m, mode, vs[..|vs| - 1]);
      PiecesStep(mode, vs);
      FeedDraws(mode, vs, Fed(m, mode, vs[..|vs| - 1]));
    }
  }

  /** From glBegin to glEnd, whatever was in the register: any number of vertices gives exactly the
      lines or triangles of the primitive, in order and each vertex in its place; a loop is closed
      from its last vertex to its first; vertices left over draw nothing. */
  lemma PrimitiveIsAssembled<V(!new)>(m: Machine<V>, mode: int, vs: seq<V>)
    requires Primitive(mode)
    ensures var r := End(Fed(m, mode, vs));
            && r.state == -1
            && r.drawn == m.drawn + Pieces(mode, vs) + (if mode == LINE_LOOP && vs != [] then [OneLine(vs, |vs| - 1, 0)] else [])
            && r.errors == m.errors + (if m.state >= 0 then [NestedBegin] else [])
  {
    FedDraws(m, mode, vs);
    NoErrors(m, mode, vs);
    hide Pieces, Fed, Holding;
    EndCloses(mode, vs, Fed(m, mode, vs));
  }

  lemma EndCloses<V(!new)>(mode: int, vs: seq<V>, m: Machine<V>)
    requires Primitive(mode) && Holding(mode, vs, m)
    ensures Begun(m) && End(m).state == -1 && End(m).errors == m.errors
    ensures End(m).drawn == m.drawn + if mode == LINE_LOOP && vs != [] then [OneLine(vs, |vs| - 1, 0)] else []
  {
  }

  lemma {:induction false} NoErrors<V(!new)>(m: Machine<V>, mode: int, vs: seq<V>)
    requires Primitive(mode)
    ensures Fed(m, mode, vs).errors == m.errors + if m.state >= 0 then [NestedBegin] else []
  {
    if vs == [] {
      TenPrimitives(mode);
    } else {
      NoErrors(m, mode, vs[..|vs| - 1]);
    }
  }
}
