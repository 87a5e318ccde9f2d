/** The texture fill's stepping from quad to quad, in exact arithmetic: adding deltas to every
    interpolated variable gives the variables that a fresh start at the next quad computes. */
module Interpolation {
  datatype V3 = V3(a: real, b: real, c: real)
  datatype V4 = V4(x: real, y: real, z: real, w: real)

  function Plus(p: V3, q: V3): V3 {
    V3(p.a + q.a, p.b + q.b, p.c + q.c)
  }

  function Times(f: real, p: V3): V3 {
    V3(f * p.a, f * p.b, f * p.c)
  }

  function Dot(p: V3, q: V3): real {
    p.a * q.a + p.b * q.b + p.c * q.c
  }

  /** A scalar added to every lane. */
  function Shift(v: V4, d: real): V4 {
    V4(v.x + d, v.y + d, v.z + d, v.w + d)
  }

  /** The weighted sum of three vectors, lane by lane. */
  function Extract(what: V3, a: V4, b: V4, c: V4): V4 {
    V4(Dot(what, V3(a.x, b.x, c.x)), Dot(what, V3(a.y, b.y, c.y)), Dot(what, V3(a.z, b.z, c.z)), Dot(what, V3(a.w, b.w, c.w)))
  }

  /** The deltas of the edge weights and the vertex attributes of a triangle. */
  datatype Tri = Tri(dx: V3, dy: V3, w: V3, s: V3, t: V3)

  /** One quad to the right; and from the last quad of a row to the first of the next. */
  function AcrossQuad(tri: Tri): V3 {
    Times(4.0, tri.dx)
  }

  function ToNextRow(tri: Tri): V3 {
    Plus(tri.dy, Times(-28.0, tri.dx))
  }

  /** The multipliers from which the mipmap level is worked out. */
  function MipmapWeights(tri: Tri): V3 {
    var wx, wy := Dot(tri.w, tri.dx), Dot(tri.w, tri.dy);
    var sx, sy := Dot(tri.s, tri.dx), Dot(tri.s, tri.dy);
    var tx, ty := Dot(tri.t, tri.dx), Dot(tri.t, tri.dy);
    V3(sx * ty - sy * tx, tx * wy - ty * wx, wx * sy - wy * sx)
  }

  /** Everything the loop steps: the weights of the quad's first pixel, the weights of its four
      pixels, and what is interpolated from them. */
  datatype Vars = Vars(A: V3, aa: V4, ab: V4, ac: V4, w: V4, s: V4, t: V4, k: V4)

  function Lanes(first: real, dx: real): V4 {
    V4(first, dx + first, 2.0 * dx + first, 3.0 * dx + first)
  }

  /** The variables as computed on entry, from the weights in the block. */
  function Begin(tri: Tri, A: V3): Vars {
    var aa, ab, ac := Lanes(A.a, tri.dx.a), Lanes(A.b, tri.dx.b), Lanes(A.c, tri.dx.c);
    var w, s, t := Extract(tri.w, aa, ab, ac), Extract(tri.s, aa, ab, ac), Extract(tri.t, aa, ab, ac);
    Vars(A, aa, ab, ac, w, s, t, Extract(MipmapWeights(tri), w, s, t))
  }

  /** The variables as stepped in the loop. */
  function Advance(tri: Tri, v: Vars, d: V3): Vars {
    var wd, sd, td := Dot(tri.w, d), Dot(tri.s, d), Dot(tri.t, d);
    Vars(Plus(v.A, d), Shift(v.aa, d.a), Shift(v.ab, d.b), Shift(v.ac, d.c),
         Shift(v.w, wd), Shift(v.s, sd), Shift(v.t, td),
         Shift(v.k, Dot(MipmapWeights(tri), V3(wd, sd, td))))
  }

  lemma DotPlus(p: V3, q: V3, r: V3)
    ensures Dot(p, Plus(q, r)) == Dot(p, q) + Dot(p, r)
  {
  }

  lemma ExtractShift(what: V3, a: V4, b: V4, c: V4, d: V3)
    ensures Extract(what, Shift(a, d.a), Shift(b, d.b), Shift(c, d.c)) == Shift(Extract(what, a, b, c), Dot(what, d))
  {
    DotPlus(what, V3(a.x, b.x, c.x), d);
    DotPlus(what, V3(a.y, b.y, c.y), d);
    DotPlus(what, V3(a.z, b.z, c.z), d);
    DotPlus(what, V3(a.w, b.w, c.w), d);
  }

  /** Stepping and starting afresh agree, so nothing is lost by keeping only the weights. */
  lemma AdvanceIsBegin(tri: Tri, A: V3, d: V3)
    ensures Advance(tri, Begin(tri, A), d) == Begin(tri, Plus(A, d))
  {
    hide Dot, MipmapWeights, Extract;
    var v := Begin(tri, A);
    ExtractShift(tri.w, v.aa, v.ab, v.ac, d);
    ExtractShift(tri.s, v.aa, v.ab, v.ac, d);
    ExtractShift(tri.t, v.aa, v.ab, v.ac, d);
    ExtractShift(MipmapWeights(tri), v.w, v.s, v.t, V3(Dot(tri.w, d), Dot(tri.s, d), Dot(tri.t, d)));
  }

  // ---- where the quads of a tile are ----

  const QUADS: nat := 256

  /** The weights at the first pixel of quad q: eight quads of four pixels to a row. */
  function At(tri: Tri, A: V3, q: nat): V3 {
    Plus(A, Plus(Times((4 * (q % 8)) as real, tri.dx), Times((q / 8) as real, tri.dy)))
  }

  /** The step taken when `left` quads are left to do, this one included. */
  function StepAt(tri: Tri, left: nat): V3 {
    if left % 8 == 1 then ToNextRow(tri) else AcrossQuad(tri)
  }

  lemma TimesPlus(f: real, g: real, p: V3)
    ensures Plus(Times(f, p), Times(g, p)) == Times(f + g, p)
  {
  }

  lemma StepIsNext(tri: Tri, A: V3, q: nat)
    requires q < QUADS
    ensures Plus(At(tri, A, q), StepAt(tri, QUADS - q)) == At(tri, A, q + 1)
  {
    var f, g := (4 * (q % 8)) as real, (q / 8) as real;
    if q % 8 == 7 {
      assert f == 28.0 && (q + 1) / 8 == q / 8 + 1 && (q + 1) % 8 == 0;
      assert ((q + 1) / 8) as real == g + 1.0 && (4 * ((q + 1) % 8)) as real == 0.0;
      TimesPlus(g, 1.0, tri.dy);
      TimesPlus(28.0, -28.0, tri.dx);
    } else {
      assert (q + 1) / 8 == q / 8 && (q + 1) % 8 == q % 8 + 1;
      assert (4 * ((q + 1) % 8)) as real == f + 4.0;
      TimesPlus(f, 4.0, tri.dx);
    }
  }
}
