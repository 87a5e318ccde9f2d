/** The Hilbert curve generator: a recursive walk that moves shared coordinates one step at a
    time, proved to visit every cell of its square exactly once. */
module Hilbert {

  datatype Orientation = DRU | RDL | LUR | ULD

  datatype Heading = Down | Right | Up | Left

  datatype Cell = Cell(x: int, y: int)

  function Pow2(d: nat): (r: nat)
    ensures r >= 1
  {
    if d == 0 then 1 else 2 * Pow2(d - 1)
  }

  function Pow4(d: nat): (r: nat)
    ensures r >= 1
  {
    if d == 0 then 1 else 4 * Pow4(d - 1)
  }

  /** k cells from c along a heading; y grows downwards. */
  function Go(c: Cell, v: Heading, k: int): Cell {
    match v
    case Down => Cell(c.x, c.y + k)
    case Right => Cell(c.x + k, c.y)
    case Up => Cell(c.x, c.y - k)
    case Left => Cell(c.x - k, c.y)
  }

  /** The step from the first quarter to the second; the last step goes back the same way. */
  function Aside(o: Orientation): Heading {
    match o case DRU => Down case RDL => Right case LUR => Left case ULD => Up
  }

  /** The step across the middle, which is also the way from the first cell to the last. */
  function Along(o: Orientation): Heading {
    match o case DRU => Right case RDL => Down case LUR => Up case ULD => Left
  }

  /** The far corner of a square of side `side` that is entered at c. */
  function Corner(side: nat, o: Orientation, c: Cell): Cell {
    Go(c, Along(o), side - 1)
  }

  /** The orientation of the k-th quarter. */
  function Turned(o: Orientation, k: nat): Orientation {
    if k == 0 then match o { case DRU => RDL case RDL => DRU case LUR => ULD case ULD => LUR }
    else if k == 3 then match o { case DRU => LUR case RDL => ULD case LUR => DRU case ULD => RDL }
    else o
  }

  /** The cell in which the k-th quarter, of side h, is entered. */
  function Entry(h: nat, o: Orientation, c: Cell, k: nat): Cell {
    if k == 0 then c
    else if k == 1 then Go(c, Aside(o), h)
    else if k == 2 then Go(Go(c, Aside(o), h), Along(o), h)
    else Go(Go(c, Aside(o), h - 1), Along(o), 2 * h - 1)
  }

  /** The cells that a walk of depth d entered at c visits, in order: quarter by quarter. */
  function Walk(d: nat, o: Orientation, c: Cell): (r: seq<Cell>)
    ensures |r| == Pow4(d)
    decreases d, 1
  {
    if d == 0 then [c] else Part(d, o, c, 0) + Part(d, o, c, 1) + Part(d, o, c, 2) + Part(d, o, c, 3)
  }

  function Part(d: nat, o: Orientation, c: Cell, k: nat): (r: seq<Cell>)
    requires d > 0
    ensures |r| == Pow4(d - 1)
    decreases d, 0
  {
    Walk(d - 1, Turned(o, k), Entry(Pow2(d - 1), o, c, k))
  }

  /** The square a walk from c has to fill: it grows down and right of c, or up and left. */
  predicate InSquare(side: nat, o: Orientation, c: Cell, p: Cell) {
    if o.DRU? || o.RDL?
    then c.x <= p.x < c.x + side && c.y <= p.y < c.y + side
    else c.x - side < p.x <= c.x && c.y - side < p.y <= c.y
  }

  predicate InQuarter(h: nat, o: Orientation, c: Cell, k: nat, p: Cell) {
    InSquare(h, Turned(o, k), Entry(h, o, c, k), p)
  }

  /** The four quarters of side h tile the square of side 2h. */
  lemma QuartersTile(h: nat, o: Orientation, c: Cell, p: Cell)
    requires h >= 1
    ensures InQuarter(h, o, c, 0, p) || InQuarter(h, o, c, 1, p) || InQuarter(h, o, c, 2, p) || InQuarter(h, o, c, 3, p)
            <==> InSquare(2 * h, o, c, p)
  {
    match o { case DRU => case RDL => case LUR => case ULD => }
  }

  lemma QuartersDisjoint(h: nat, o: Orientation, c: Cell, p: Cell, j: nat, k: nat)
    requires h >= 1 && j < k < 4
    ensures !(InQuarter(h, o, c, j, p) && InQuarter(h, o, c, k, p))
  {
    match o { case DRU => case RDL => case LUR => case ULD => }
  }

  /** A walk visits the cells of its square and no others. */
  lemma {:induction false} WalkFillsSquare(d: nat, o: Orientation, c: Cell, p: Cell)
    ensures p in Walk(d, o, c) <==> InSquare(Pow2(d), o, c, p)
    decreases d, 1
  {
    if d > 0 {
      hide Part, InSquare, InQuarter, Entry, Turned;
      QuartersTile(Pow2(d - 1), o, c, p);
      PartFillsQuarter(d, o, c, 0, p);
      PartFillsQuarter(d, o, c, 1, p);
      PartFillsQuarter(d, o, c, 2, p);
      PartFillsQuarter(d, o, c, 3, p);
    }
  }

  lemma {:induction false} PartFillsQuarter(d: nat, o: Orientation, c: Cell, k: nat, p: Cell)
    requires d > 0
    ensures p in Part(d, o, c, k) <==> InQuarter(Pow2(d - 1), o, c, k, p)
    decreases d, 0
  {
    WalkFillsSquare(d - 1, Turned(o, k), Entry(Pow2(d - 1), o, c, k), p);
  }

  predicate Distinct(q: seq<Cell>) {
    forall i, j :: 0 <= i < j < |q| ==> q[i] != q[j]
  }

  lemma DistinctConcat(a: seq<Cell>, b: seq<Cell>)
    requires Distinct(a) && Distinct(b) && forall p :: p in a ==> p !in b
    ensures Distinct(a + b)
  {
    forall i, j | 0 <= i < j < |a + b| ensures (a + b)[i] != (a + b)[j] {
      if i < |a| && j >= |a| {
        assert a[i] in a && b[j - |a|] in b;
      }
    }
  }

  /** A walk visits no cell twice. */
  lemma {:induction false} WalkIsInjective(d: nat, o: Orientation, c: Cell)
    ensures Distinct(Walk(d, o, c))
  {
    if d > 0 {
      var q0, q1, q2, q3 := Part(d, o, c, 0), Part(d, o, c, 1), Part(d, o, c, 2), Part(d, o, c, 3);
      WalkIsInjective(d - 1, Turned(o, 0), Entry(Pow2(d - 1), o, c, 0));
      WalkIsInjective(d - 1, Turned(o, 1), Entry(Pow2(d - 1), o, c, 1));
      WalkIsInjective(d - 1, Turned(o, 2), Entry(Pow2(d - 1), o, c, 2));
      WalkIsInjective(d - 1, Turned(o, 3), Entry(Pow2(d - 1), o, c, 3));
      forall p ensures !(p in q0 && p in q1) && !(p in q0 + q1 && p in q2) && !(p in q0 + q1 + q2 && p in q3) {
        PartsDisjoint(d, o, c, p);
      }
      hide Part, Entry, Turned, Distinct;
      DistinctConcat(q0, q1);
      DistinctConcat(q0 + q1, q2);
      DistinctConcat(q0 + q1 + q2, q3);
    }
  }

  lemma {:induction false} PartsDisjoint(d: nat, o: Orientation, c: Cell, p: Cell)
    requires d > 0
    ensures forall j: nat, k: nat :: j < k < 4 ==> !(p in Part(d, o, c, j) && p in Part(d, o, c, k))
  {
    hide Part, InQuarter;
    forall j: nat, k: nat | j < k < 4 ensures !(p in Part(d, o, c, j) && p in Part(d, o, c, k)) {
      PartFillsQuarter(d, o, c, j, p);
      PartFillsQuarter(d, o, c, k, p);
      QuartersDisjoint(Pow2(d - 1), o, c, p, j, k);
    }
  }

  predicate Adjacent(a: Cell, b: Cell) {
    (a.x == b.x && (a.y - b.y == 1 || b.y - a.y == 1)) || (a.y == b.y && (a.x - b.x == 1 || b.x - a.x == 1))
  }

  /** From a to b in single steps. */
  predicate Connected(q: seq<Cell>, a: Cell, b: Cell) {
    && q != [] && q[0] == a && q[|q| - 1] == b
    && forall i :: 0 <= i < |q| - 1 ==> Adjacent(q[i], q[i + 1])
  }

  lemma ConnectedConcat(p: seq<Cell>, q: seq<Cell>, a: Cell, b: Cell, c: Cell, d: Cell)
    requires Connected(p, a, b) && Connected(q, c, d) && Adjacent(b, c)
    ensures Connected(p + q, a, d)
  {
  }

  /** Between the quarters: one cell aside, one along, one back; and out at the corner. */
  lemma EntriesMeet(h: nat, o: Orientation, c: Cell)
    requires h >= 1
    ensures Entry(h, o, c, 0) == c
    ensures Entry(h, o, c, 1) == Go(Corner(h, Turned(o, 0), c), Aside(o), 1)
    ensures Entry(h, o, c, 2) == Go(Corner(h, o, Entry(h, o, c, 1)), Along(o), 1)
    ensures Entry(h, o, c, 3) == Go(Corner(h, o, Entry(h, o, c, 2)), Aside(o), -1)
    ensures Corner(h, Turned(o, 3), Entry(h, o, c, 3)) == Corner(2 * h, o, c)
  {
    match o { case DRU => case RDL => case LUR => case ULD => }
  }

  /** A walk goes from c to the far corner in single steps. */
  lemma {:induction false} WalkIsConnected(d: nat, o: Orientation, c: Cell)
    ensures Connected(Walk(d, o, c), c, Corner(Pow2(d), o, c))
  {
    if d > 0 {
      var h := Pow2(d - 1);
      var q0, q1, q2, q3 := Part(d, o, c, 0), Part(d, o, c, 1), Part(d, o, c, 2), Part(d, o, c, 3);
      WalkIsConnected(d - 1, Turned(o, 0), Entry(h, o, c, 0));
      WalkIsConnected(d - 1, Turned(o, 1), Entry(h, o, c, 1));
      WalkIsConnected(d - 1, Turned(o, 2), Entry(h, o, c, 2));
      WalkIsConnected(d - 1, Turned(o, 3), Entry(h, o, c, 3));
      EntriesMeet(h, o, c);
      var e0, e1 := Corner(h, Turned(o, 0), c), Corner(h, o, Entry(h, o, c, 1));
      var e2, e3 := Corner(h, o, Entry(h, o, c, 2)), Corner(2 * h, o, c);
      hide Entry, Corner, Connected;
      ConnectedConcat(q0, q1, c, e0, Entry(h, o, c, 1), e1);
      ConnectedConcat(q0 + q1, q2, c, e1, Entry(h, o, c, 2), e2);
      ConnectedConcat(q0 + q1 + q2, q3, c, e2, Entry(h, o, c, 3), e3);
    }
  }

  // ---- the program ----

  /** The lines that printing the cells with the counter at n gives. */
  function Numbered(n: int, cells: seq<Cell>): seq<(int, Cell)> {
    seq(|cells|, k requires 0 <= k < |cells| => (n + k, cells[k]))
  }

  /** The output after printing the cells with the counter at n. */
  function Output(before: seq<(int, Cell)>, n: int, cells: seq<Cell>): seq<(int, Cell)> {
    before + Numbered(n, cells)
  }

  lemma NumberedConcat(n: int, a: seq<Cell>, b: seq<Cell>)
    ensures Numbered(n, a + b) == Numbered(n, a) + Numbered(n + |a|, b)
  {
  }

  lemma {:induction false} NumberedWalk(d: nat, o: Orientation, c: Cell, n: int)
    requires d > 0
    ensures var m := Pow4(d - 1);
            Numbered(n, Walk(d, o, c)) ==
              Numbered(n, Part(d, o, c, 0)) + Numbered(n + m, Part(d, o, c, 1))
              + Numbered(n + 2 * m, Part(d, o, c, 2)) + Numbered(n + 3 * m, Part(d, o, c, 3))
  {
    hide Part, Numbered;
    var q0, q1, q2, q3 := Part(d, o, c, 0), Part(d, o, c, 1), Part(d, o, c, 2), Part(d, o, c, 3);
    NumberedConcat(n, q0, q1);
    NumberedConcat(n, q0 + q1, q2);
    NumberedConcat(n, q0 + q1 + q2, q3);
  }

  /** What has been printed after each of the four quarters. */
  lemma FourParts(before: seq<(int, Cell)>, n: int, d: nat, o: Orientation, c: Cell,
                  p0: seq<(int, Cell)>, p1: seq<(int, Cell)>, p2: seq<(int, Cell)>, p3: seq<(int, Cell)>)
    requires p0 == Output(before, n, Part(d + 1, o, c, 0))
    requires p1 == Output(p0, n + Pow4(d), Part(d + 1, o, c, 1))
    requires p2 == Output(p1, n + 2 * Pow4(d), Part(d + 1, o, c, 2))
    requires p3 == Output(p2, n + 3 * Pow4(d), Part(d + 1, o, c, 3))
    ensures p3 == Output(before, n, Walk(d + 1, o, c))
  {
    NumberedWalk(d + 1, o, c, n);
    hide Part, Numbered, Walk;
  }

  lemma PartIsWalk(d: nat, o: Orientation, c: Cell, k: nat)
    ensures Part(d + 1, o, c, k) == Walk(d, Turned(o, k), Entry(Pow2(d), o, c, k))
  {
  }

  /** Four walks with the single steps between them are one walk of the next depth. */
  lemma FourWalks(before: seq<(int, Cell)>, n: int, d: nat, o: Orientation, c: Cell,
                  p0: seq<(int, Cell)>, p1: seq<(int, Cell)>, p2: seq<(int, Cell)>, p3: seq<(int, Cell)>,
                  e0: Cell, e1: Cell, e2: Cell, e3: Cell)
    requires e0 == Corner(Pow2(d), Turned(o, 0), c)
    requires e1 == Corner(Pow2(d), o, Go(e0, Aside(o), 1))
    requires e2 == Corner(Pow2(d), o, Go(e1, Along(o), 1))
    requires e3 == Corner(Pow2(d), Turned(o, 3), Go(e2, Aside(o), -1))
    requires p0 == Output(before, n, Walk(d, Turned(o, 0), c))
    requires p1 == Output(p0, n + Pow4(d), Walk(d, o, Go(e0, Aside(o), 1)))
    requires p2 == Output(p1, n + 2 * Pow4(d), Walk(d, o, Go(e1, Along(o), 1)))
    requires p3 == Output(p2, n + 3 * Pow4(d), Walk(d, Turned(o, 3), Go(e2, Aside(o), -1)))
    ensures p3 == Output(before, n, Walk(d + 1, o, c)) && e3 == Corner(2 * Pow2(d), o, c)
  {
    hide Walk, Part, Entry, Output, Corner, Go, Pow2, Pow4, Aside, Along;
    EntriesMeet(Pow2(d), o, c);
    PartIsWalk(d, o, c, 0);
    PartIsWalk(d, o, c, 1);
    PartIsWalk(d, o, c, 2);
    PartIsWalk(d, o, c, 3);
    FourParts(before, n, d, o, c, p0, p1, p2, p3);
  }

  /** The globals of the generator, and what it has printed. */
  class Curve {
    var x: int
    var y: int
    var n: int
    ghost var printed: seq<(int, Cell)>

    constructor ()
      ensures x == 0 && y == 0 && n == 0 && printed == []
    {
      x, y, n, printed := 0, 0, 0, [];
    }

    /** emit: prints the cells of one walk, numbered, and leaves the coordinates in its far corner. */
    method Emit(d: nat, o: Orientation)
      modifies this
      ensures printed == Output(old(printed), old(n), Walk(d, o, Cell(old(x), old(y))))
      ensures n == old(n) + Pow4(d) && Cell(x, y) == Corner(Pow2(d), o, Cell(old(x), old(y)))
      decreases d, 1
    {
      if d == 0 {
        printed := printed + [(n, Cell(x, y))];
        n := n + 1;
      } else {
        match o {
          case DRU => EmitDRU(d - 1);
          case RDL => EmitRDL(d - 1);
          case LUR => EmitLUR(d - 1);
          case ULD => EmitULD(d - 1);
        }
      }
    }

    method EmitDRU(d: nat)
      modifies this
      ensures printed == Output(old(printed), old(n), Walk(d + 1, DRU, Cell(old(x), old(y))))
      ensures n == old(n) + 4 * Pow4(d) && Cell(x, y) == Corner(2 * Pow2(d), DRU, Cell(old(x), old(y)))
      decreases d, 2
    {
      hide Walk, Output, Corner, Pow2, Pow4;
      ghost var c, before, k := Cell(x, y), printed, n;
      Emit(d, RDL);
      ghost var e0, p0 := Cell(x, y), printed;
      y := y + 1;
      Emit(d, DRU);
      ghost var e1, p1 := Cell(x, y), printed;
      x := x + 1;
      Emit(d, DRU);
      ghost var e2, p2 := Cell(x, y), printed;
      y := y - 1;
      Emit(d, LUR);
      FourWalks(before, k, d, DRU, c, p0, p1, p2, printed, e0, e1, e2, Cell(x, y));
    }

    method EmitRDL(d: nat)
      modifies this
      ensures printed == Output(old(printed), old(n), Walk(d + 1, RDL, Cell(old(x), old(y))))
      ensures n == old(n) + 4 * Pow4(d) && Cell(x, y) == Corner(2 * Pow2(d), RDL, Cell(old(x), old(y)))
      decreases d, 2
    {
      hide Walk, Output, Corner, Pow2, Pow4;
      ghost var c, before, k := Cell(x, y), printed, n;
      Emit(d, DRU);
      ghost var e0, p0 := Cell(x, y), printed;
      x := x + 1;
      Emit(d, RDL);
      ghost var e1, p1 := Cell(x, y), printed;
      y := y + 1;
      Emit(d, RDL);
      ghost var e2, p2 := Cell(x, y), printed;
      x := x - 1;
      Emit(d, ULD);
      FourWalks(before, k, d, RDL, c, p0, p1, p2, printed, e0, e1, e2, Cell(x, y));
    }

    method EmitLUR(d: nat)
      modifies this
      ensures printed == Output(old(printed), old(n), Walk(d + 1, LUR, Cell(old(x), old(y))))
      ensures n == old(n) + 4 * Pow4(d) && Cell(x, y) == Corner(2 * Pow2(d), LUR, Cell(old(x), old(y)))
      decreases d, 2
    {
      hide Walk, Output, Corner, Pow2, Pow4;
      ghost var c, before, k := Cell(x, y), printed, n;
      Emit(d, ULD);
      ghost var e0, p0 := Cell(x, y), printed;
      x := x - 1;
      Emit(d, LUR);
      ghost var e1, p1 := Cell(x, y), printed;
      y := y - 1;
      Emit(d, LUR);
      ghost var e2, p2 := Cell(x, y), printed;
      x := x + 1;
      Emit(d, DRU);
      FourWalks(before, k, d, LUR, c, p0, p1, p2, printed, e0, e1, e2, Cell(x, y));
    }

    method EmitULD(d: nat)
      modifies this
      ensures printed == Output(old(printed), old(n), Walk(d + 1, ULD, Cell(old(x), old(y))))
      ensures n == old(n) + 4 * Pow4(d) && Cell(x, y) == Corner(2 * Pow2(d), ULD, Cell(old(x), old(y)))
      decreases d, 2
    {
      hide Walk, Output, Corner, Pow2, Pow4;
      ghost var c, before, k := Cell(x, y), printed, n;
      Emit(d, LUR);
      ghost var e0, p0 := Cell(x, y), printed;
      y := y - 1;
      Emit(d, ULD);
      ghost var e1, p1 := Cell(x, y), printed;
      x := x - 1;
      Emit(d, ULD);
      ghost var e2, p2 := Cell(x, y), printed;
      y := y + 1;
      Emit(d, RDL);
      FourWalks(before, k, d, ULD, c, p0, p1, p2, printed, e0, e1, e2, Cell(x, y));
    }
  }
}
