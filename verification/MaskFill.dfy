/** The mask pixel shader: one 32 by 32 tile filled four pixels at a time with three edge values
    stepped in 32-bit arithmetic that wraps around. */
module MaskFill {
  type Word = x: int | -0x8000_0000 <= x < 0x8000_0000

  function Wrap(x: int): Word {
    (x + 0x8000_0000) % 0x1_0000_0000 - 0x8000_0000
  }

  lemma WrapPlus(x: int, y: int)
    ensures Wrap(Wrap(x) + y) == Wrap(x + y)
  {
  }

  lemma WrapMinus(x: int, y: int)
    ensures Wrap(x - Wrap(y)) == Wrap(x - y)
  {
  }

  /** One word for each edge; and four words, one for each pixel of a quad. */
  datatype Edges = Edges(a: Word, b: Word, c: Word)
  datatype Lanes = Lanes(x: Word, y: Word, z: Word, w: Word)

  const SIDE: nat := 32
  const QUADS: nat := 256
  const COLOUR: bv32 := 0x7fff30

  // ---- what is to be drawn ----

  /** An edge value at a point of the tile. The shader is given 32 times the deltas. */
  function Value(A: int, hdx: int, hdy: int, x: int, y: int): Word {
    Wrap(A + x * (hdx / 32) + y * (hdy / 32))
  }

  predicate Inside(A: Edges, hdx: Edges, hdy: Edges, x: int, y: int) {
    Value(A.a, hdx.a, hdy.a, x, y) < 0 && Value(A.b, hdx.b, hdy.b, x, y) < 0 && Value(A.c, hdx.c, hdy.c, x, y) < 0
  }

  function Painted(A: Edges, hdx: Edges, hdy: Edges, i: nat, was: bv32): bv32 {
    if Inside(A, hdx, hdy, i % SIDE, i / SIDE) then COLOUR else was
  }

  // ---- how it is drawn ----

  function Add(v: Lanes, d: Word): Lanes {
    Lanes(Wrap(v.x + d), Wrap(v.y + d), Wrap(v.z + d), Wrap(v.w + d))
  }

  function FirstLanes(A: Word, hdx: Word): Lanes {
    var dx: Word := hdx / 32;
    Lanes(Wrap(A), Wrap(dx + A), Wrap(Wrap(2 * dx) + A), Wrap(Wrap(dx + Wrap(2 * dx)) + A))
  }

  function Across(hdx: Word): Word {
    Wrap(4 * (hdx / 32))
  }

  function Down(hdx: Word, hdy: Word): Word {
    var dx: Word := hdx / 32;
    Wrap(hdy / 32 - Wrap(Wrap(32 * dx) - Wrap(4 * dx)))
  }

  // ---- the steps ----

  /** The four values of quad q. */
  function LanesAt(A: int, hdx: int, hdy: int, q: nat): Lanes {
    var x, y := 4 * (q % 8), q / 8;
    Lanes(Value(A, hdx, hdy, x, y), Value(A, hdx, hdy, x + 1, y), Value(A, hdx, hdy, x + 2, y), Value(A, hdx, hdy, x + 3, y))
  }

  lemma ValueAcross(A: Word, hdx: Word, hdy: Word, x: int, y: int)
    ensures Wrap(Value(A, hdx, hdy, x, y) + Across(hdx)) == Value(A, hdx, hdy, x + 4, y)
  {
    var dx, dy := hdx / 32, hdy / 32;
    var v := A + x * dx + y * dy;
    assert A + (x + 4) * dx + y * dy == v + 4 * dx;
    WrapSum(v, 4 * dx);
    hide Wrap;
  }

  lemma ValueDown(A: Word, hdx: Word, hdy: Word, x: int, y: int)
    ensures Wrap(Value(A, hdx, hdy, x, y) + Down(hdx, hdy)) == Value(A, hdx, hdy, x - 28, y + 1)
  {
    hide Down, Wrap;
    Below(A, hdx / 32, hdy / 32, x, y);
    DownIs(hdx, hdy);
    WrapSum(A + x * (hdx / 32) + y * (hdy / 32), hdy / 32 - 28 * (hdx / 32));
  }

  lemma WrapSum(v: int, w: int)
    ensures Wrap(Wrap(v) + Wrap(w)) == Wrap(v + w)
  {
    WrapPlus(v, Wrap(w));
    WrapPlus(w, v);
  }

  lemma Below(A: int, dx: int, dy: int, x: int, y: int)
    ensures A + (x - 28) * dx + (y + 1) * dy == (A + x * dx + y * dy) + (dy - 28 * dx)
  {
  }

  lemma DownIs(hdx: Word, hdy: Word)
    ensures Down(hdx, hdy) == Wrap(hdy / 32 - 28 * (hdx / 32))
  {
    var dx, dy := hdx / 32, hdy / 32;
    WrapMinus(Wrap(32 * dx), 4 * dx);
    WrapPlus(32 * dx, -4 * dx);
    WrapMinus(dy, 28 * dx);
  }

  /** Stepping from a quad to the next, in the row or into the next row. */
  lemma LanesStep(A: Word, hdx: Word, hdy: Word, q: nat)
    ensures Add(LanesAt(A, hdx, hdy, q), if q % 8 == 7 then Down(hdx, hdy) else Across(hdx)) == LanesAt(A, hdx, hdy, q + 1)
  {
    hide Value, Down, Across;
    var x, y := 4 * (q % 8), q / 8;
    if q % 8 == 7 {
      assert (q + 1) % 8 == 0 && (q + 1) / 8 == y + 1;
      ValueDown(A, hdx, hdy, x, y);
      ValueDown(A, hdx, hdy, x + 1, y);
      ValueDown(A, hdx, hdy, x + 2, y);
      ValueDown(A, hdx, hdy, x + 3, y);
    } else {
      assert (q + 1) % 8 == q % 8 + 1 && (q + 1) / 8 == y;
      ValueAcross(A, hdx, hdy, x, y);
      ValueAcross(A, hdx, hdy, x + 1, y);
      ValueAcross(A, hdx, hdy, x + 2, y);
      ValueAcross(A, hdx, hdy, x + 3, y);
    }
  }

  lemma FirstIs(dx: Word, A: Word)
    ensures Wrap(Wrap(2 * dx) + A) == Wrap(A + 2 * dx)
    ensures Wrap(Wrap(dx + Wrap(2 * dx)) + A) == Wrap(A + 3 * dx)
  {
    WrapPlus(2 * dx, A);
    WrapPlus(2 * dx, dx);
    WrapPlus(3 * dx, A);
    hide Wrap;
    assert Wrap(dx + Wrap(2 * dx)) == Wrap(3 * dx);
  }

  lemma LanesFirst(A: Word, hdx: Word, hdy: Word)
    ensures FirstLanes(A, hdx) == LanesAt(A, hdx, hdy, 0)
  {
    hide Wrap;
    FirstIs(hdx / 32, A);
  }

  method PaintPixel(pixels: array<bv32>, i: nat, drawn: bool)
    requires i < pixels.Length
    modifies pixels
    ensures pixels[i] == if drawn then COLOUR else old(pixels[i])
    ensures forall j :: 0 <= j < pixels.Length && j != i ==> pixels[j] == old(pixels[j])
  {
    if drawn {
      pixels[i] := COLOUR;
    }
  }

  /** The masked store of one quad. */
  method PaintQuad(pixels: array<bv32>, q: nat, a: Lanes, b: Lanes, c: Lanes)
    requires pixels.Length == SIDE * SIDE && q < QUADS
    modifies pixels
    ensures pixels[4 * q] == if a.x < 0 && b.x < 0 && c.x < 0 then COLOUR else old(pixels[4 * q])
    ensures pixels[4 * q + 1] == if a.y < 0 && b.y < 0 && c.y < 0 then COLOUR else old(pixels[4 * q + 1])
    ensures pixels[4 * q + 2] == if a.z < 0 && b.z < 0 && c.z < 0 then COLOUR else old(pixels[4 * q + 2])
    ensures pixels[4 * q + 3] == if a.w < 0 && b.w < 0 && c.w < 0 then COLOUR else old(pixels[4 * q + 3])
    ensures forall i :: 0 <= i < SIDE * SIDE && !(4 * q <= i < 4 * q + 4) ==> pixels[i] == old(pixels[i])
  {
    PaintPixel(pixels, 4 * q, a.x < 0 && b.x < 0 && c.x < 0);
    PaintPixel(pixels, 4 * q + 1, a.y < 0 && b.y < 0 && c.y < 0);
    PaintPixel(pixels, 4 * q + 2, a.z < 0 && b.z < 0 && c.z < 0);
    PaintPixel(pixels, 4 * q + 3, a.w < 0 && b.w < 0 && c.w < 0);
  }

  /** The tile after the shader: pixel (x, y) has the colour exactly where all three values of that
      point have their sign bit set, and is as it was elsewhere. */
  method Render(A: Edges, hdx: Edges, hdy: Edges, pixels: array<bv32>)
    requires pixels.Length == SIDE * SIDE
    modifies pixels
    ensures forall i :: 0 <= i < SIDE * SIDE ==> pixels[i] == Painted(A, hdx, hdy, i, old(pixels[i]))
  {
    hide Value, Across, Down, FirstLanes, Add, Inside, LanesAt, Painted;
    var a, b, c := FirstLanes(A.a, hdx.a), FirstLanes(A.b, hdx.b), FirstLanes(A.c, hdx.c);
    LanesFirst(A.a, hdx.a, hdy.a);
    LanesFirst(A.b, hdx.b, hdy.b);
    LanesFirst(A.c, hdx.c, hdy.c);
    var left, q := QUADS, 0;
    while left > 0
      invariant q + left == QUADS && q <= QUADS
      invariant a == LanesAt(A.a, hdx.a, hdy.a, q)
      invariant b == LanesAt(A.b, hdx.b, hdy.b, q)
      invariant c == LanesAt(A.c, hdx.c, hdy.c, q)
      invariant forall i :: 0 <= i < 4 * q ==> pixels[i] == Painted(A, hdx, hdy, i, old(pixels[i]))
      invariant forall i :: 4 * q <= i < SIDE * SIDE ==> pixels[i] == old(pixels[i])
    {
      QuadInside(A, hdx, hdy, q, a, b, c, pixels[4 * q..4 * q + 4]);
      PaintQuad(pixels, q, a, b, c);
      LanesStep(A.a, hdx.a, hdy.a, q);
      LanesStep(A.b, hdx.b, hdy.b, q);
      LanesStep(A.c, hdx.c, hdy.c, q);
      var last := left % 8 == 1;
      a := Add(a, if last then Down(hdx.a, hdy.a) else Across(hdx.a));
      b := Add(b, if last then Down(hdx.b, hdy.b) else Across(hdx.b));
      c := Add(c, if last then Down(hdx.c, hdy.c) else Across(hdx.c));
      q := q + 1;
      left := left - 1;
    }
  }

  /** The four lanes of quad q are the pixels 4q to 4q + 3. */
  lemma QuadInside(A: Edges, hdx: Edges, hdy: Edges, q: nat, a: Lanes, b: Lanes, c: Lanes, p: seq<bv32>)
    requires a == LanesAt(A.a, hdx.a, hdy.a, q) && b == LanesAt(A.b, hdx.b, hdy.b, q) && c == LanesAt(A.c, hdx.c, hdy.c, q)
    requires |p| == 4
    ensures Painted(A, hdx, hdy, 4 * q, p[0]) == if a.x < 0 && b.x < 0 && c.x < 0 then COLOUR else p[0]
    ensures Painted(A, hdx, hdy, 4 * q + 1, p[1]) == if a.y < 0 && b.y < 0 && c.y < 0 then COLOUR else p[1]
    ensures Painted(A, hdx, hdy, 4 * q + 2, p[2]) == if a.z < 0 && b.z < 0 && c.z < 0 then COLOUR else p[2]
    ensures Painted(A, hdx, hdy, 4 * q + 3, p[3]) == if a.w < 0 && b.w < 0 && c.w < 0 then COLOUR else p[3]
  {
    hide Value;
    PixelOfQuad(q, 0);
    PixelOfQuad(q, 1);
    PixelOfQuad(q, 2);
    PixelOfQuad(q, 3);
  }

  lemma PixelOfQuad(q: nat, l: nat)
    requires l < 4
    ensures (4 * q + l) % SIDE == 4 * (q % 8) + l && (4 * q + l) / SIDE == q / 8
  {
  }

  // ---- without overflow ----

  /** The exact value at a point. */
  function Exact(A: int, hdx: int, hdy: int, x: int, y: int): int {
    A + x * (hdx / 32) + y * (hdy / 32)
  }

  /** An affine function lies between its values at the corners. */
  lemma Between(d: int, x: int)
    requires 0 <= x <= 31
    ensures if d >= 0 then 0 <= x * d <= 31 * d else 31 * d <= x * d <= 0
  {
    if d >= 0 {
      assert (31 - x) * d >= 0;
    } else {
      assert (31 - x) * -d >= 0 && x * -d >= 0;
    }
  }

  /** If the four corners of the tile do not overflow, the tile is painted exactly where the three
      exact values are negative, however the steps in between wrapped around. */
  lemma CornersDecide(A: Word, hdx: Word, hdy: Word, x: int, y: int)
    requires 0 <= x < SIDE && 0 <= y < SIDE
    requires forall u, v :: u in {0, 31} && v in {0, 31} ==> -0x8000_0000 <= Exact(A, hdx, hdy, u, v) < 0x8000_0000
    ensures Value(A, hdx, hdy, x, y) == Exact(A, hdx, hdy, x, y)
  {
    var dx, dy := hdx / 32, hdy / 32;
    Between(dx, x);
    Between(dy, y);
    assert {0, 31} == {0, 31};
    var e00, e10, e01, e11 := Exact(A, hdx, hdy, 0, 0), Exact(A, hdx, hdy, 31, 0), Exact(A, hdx, hdy, 0, 31), Exact(A, hdx, hdy, 31, 31);
    assert 0 in {0, 31} && 31 in {0, 31};
  }
}
