/** A triangle cut into blocks of 32 by 32 pixels: which blocks it is cut into, and the producer
    that hands them out one call at a time from byte- and halfword-sized counters. */
module BlockProducer {
  import opened Division
  import opened Interpolation
  import opened EdgeWeights

  // ---- the blocks of a triangle ----

  function Bit(b: bool): nat {
    if b then 1 else 0
  }

  /** Where the smallest and the largest of three values are, by the outcome of the comparisons of
      neighbours; 3 stands for a constant nought. */
  const EXTREMES: seq<(nat, nat)> := [(3, 3), (0, 2), (2, 1), (0, 1), (1, 0), (1, 2), (2, 0), (3, 3)]

  function Compared(v: V3): (r: nat)
    ensures r < 8
  {
    4 * Bit(v.a > v.b) + 2 * Bit(v.b > v.c) + Bit(v.c > v.a)
  }

  function Pick(v: V3, k: nat): real {
    if k < 3 then Get(v, k) else 0.0
  }

  function Lowest(v: V3): real {
    Pick(v, EXTREMES[Compared(v)].0)
  }

  function Highest(v: V3): real {
    Pick(v, EXTREMES[Compared(v)].1)
  }

  /** The table gives the extremes of all values that are not all the same; for those it gives
      nought. */
  lemma ExtremesAreRight(v: V3)
    ensures v.a == v.b == v.c <==> Compared(v) == 0
    ensures Compared(v) != 7
    ensures Compared(v) != 0 ==>
              && Lowest(v) <= v.a <= Highest(v) && Lowest(v) <= v.b <= Highest(v) && Lowest(v) <= v.c <= Highest(v)
              && (exists i :: 0 <= i < 3 && Lowest(v) == Get(v, i)) && (exists i :: 0 <= i < 3 && Highest(v) == Get(v, i))
    ensures Compared(v) == 0 ==> Lowest(v) == Highest(v) == 0.0
  {
    assert 0 <= 0 < 3 && 0 <= 1 < 3 && 0 <= 2 < 3;
    assert Get(v, 0) == v.a && Get(v, 1) == v.b && Get(v, 2) == v.c;
  }

  /** Conversion to an integer, towards nought. */
  function Truncated(r: real): int {
    if r >= 0.0 then r.Floor else -(-r).Floor
  }

  function ClipLow(r: real): nat {
    if Truncated(r) > 0 then Truncated(r) else 0
  }

  function ClipHigh(r: real, size: int): int {
    if Truncated(r) > size - 32 then size - 32 else Truncated(r)
  }

  /** A rectangle of blocks, edges included. */
  datatype Rect = Rect(left: int, top: int, right: int, bottom: int)

  function Bounds(t: Corners, width: int, height: int): Rect {
    Rect(ClipLow(Lowest(t.x)) / 32, ClipLow(Lowest(t.y)) / 32,
         ClipHigh(Highest(t.x), width) / 32, ClipHigh(Highest(t.y), height) / 32)
  }

  /** The rectangle has a block, and its coordinates fit into bytes. */
  predicate Proper(r: Rect) {
    0 <= r.left <= r.right < 256 && 0 <= r.top <= r.bottom < 256
  }

  // ---- the producer ----

  function Byte(x: int): int {
    x % 256
  }

  function Short(x: int): int {
    (x + 0x8000) % 0x1_0000 - 0x8000
  }

  function Unsigned(x: int): int {
    x % 0x1_0000_0000
  }

  datatype Producer = Producer(A: V3, dx32: V3, dy32: V3, left: int, count: int, step: int, stepStart: int,
                               x: int, y: int, blockLeft: int, producing: bool)

  datatype Block = Block(bx: int, by_: int, A: V3, left: nat)

  /** What the vertices leave behind for the producer. */
  function Start(t: Corners, r: Rect): Producer {
    var dx, dy := DeltaX(t), DeltaY(t);
    var wide := (32 * r.right) as real - (32 * r.left) as real;
    Producer(
      Plus(Times((32 * r.left) as real, dx), Plus(Times((32 * r.top) as real, dy), AtOrigin(t))),
      Times(32.0, dx), Minus(Times(32.0, dy), Times(wide, dx)),
      Short((r.bottom + 1 - r.top) * (r.right + 1 - r.left)), 1,
      Byte(r.right - r.left), Byte(r.right - r.left), Byte(r.left), Byte(r.top), r.left, true)
  }

  /** One call: the block, the number returned with it, and the producer for the next call. */
  function Produce(p: Producer): (Block, int, Producer) {
    var last := p.step == 0;
    var x, y := if last then p.blockLeft else p.x + 1, if last then p.y + 1 else p.y;
    var left := Unsigned(p.left - 1);
    (Block(p.x, p.y, p.A, 256), x + 256 * y,
     p.(A := Plus(p.A, if last then p.dy32 else p.dx32), left := Short(left),
        count := if left == 0 then p.count else p.count + 1,
        step := if last then p.stepStart else Byte(p.step - 1),
        x := Byte(x), y := Byte(y), producing := p.producing && left != 0))
  }

  class Triangle {
    var A: V3
    var dx32: V3
    var dy32: V3
    var left: int
    var count: int
    var step: int
    var stepStart: int
    var x: int
    var y: int
    var blockLeft: int
    var producing: bool

    function View(): Producer
      reads this
    {
      Producer(A, dx32, dy32, left, count, step, stepStart, x, y, blockLeft, producing)
    }

    constructor (t: Corners, r: Rect)
      ensures View() == Start(t, r)
    {
      var dx, dy := DeltaX(t), DeltaY(t);
      A := Plus(Times((32 * r.left) as real, dx), Plus(Times((32 * r.top) as real, dy), AtOrigin(t)));
      dx32 := Times(32.0, dx);
      dy32 := Minus(Times(32.0, dy), Times((32 * r.right) as real - (32 * r.left) as real, dx));
      step := Byte(r.right - r.left);
      stepStart := Byte(r.right - r.left);
      x, y, blockLeft := Byte(r.left), Byte(r.top), r.left;
      left := Short((r.bottom + 1 - r.top) * (r.right + 1 - r.left));
      count, producing := 1, true;
    }

    method NextBlock() returns (block: Block, hash: int)
      modifies this
      ensures (block, hash, View()) == Produce(old(View()))
    {
      block := Block(x, y, A, 256);
      count := count + 1;
      var bx, by_ := x, y;
      if step == 0 {
        A := Plus(A, dy32);
        bx, by_, step := blockLeft, by_ + 1, stepStart;
      } else {
        A := Plus(A, dx32);
        bx, step := bx + 1, Byte(step - 1);
      }
      var left' := Unsigned(left - 1);
      x, y, left := Byte(bx), Byte(by_), Short(left');
      if left' == 0 {
        count := count - 1;
        producing := false;
      }
      hash := bx + 256 * by_;
    }
  }

  // ---- the order of the blocks ----

  function Wide(r: Rect): int {
    r.right + 1 - r.left
  }

  function Total(r: Rect): int {
    (r.bottom + 1 - r.top) * Wide(r)
  }

  /** The place of block n, row by row. */
  function Column(r: Rect, n: nat): int
    requires Proper(r)
  {
    r.left + n % Wide(r)
  }

  function Row(r: Rect, n: nat): int
    requires Proper(r)
  {
    r.top + n / Wide(r)
  }

  function CornerWeights(t: Corners, x: int, y: int): V3 {
    Weights(t, (32 * x) as real, (32 * y) as real)
  }

  /** The producer after n calls. */
  function AfterCalls(t: Corners, r: Rect, n: nat): Producer {
    if n == 0 then Start(t, r) else Produce(AfterCalls(t, r, n - 1)).2
  }

  lemma DivStep(n: nat, w: int)
    requires w > 0
    ensures n % w == w - 1 ==> (n + 1) / w == n / w + 1 && (n + 1) % w == 0
    ensures n % w < w - 1 ==> (n + 1) / w == n / w && (n + 1) % w == n % w + 1
  {
    var q, m := n / w, n % w;
    assert n == w * q + m;
    if m == w - 1 {
      assert n + 1 == w * (q + 1) by { assert w * (q + 1) == w * q + w; }
      DivUnique(n + 1, w, q + 1, 0);
    } else {
      DivUnique(n + 1, w, q, m + 1);
    }
  }

  lemma QuotientBound(n: nat, w: int, h: int)
    requires w > 0 && n < h * w
    ensures 0 <= n / w < h
  {
    var q := n / w;
    assert n == w * q + n % w;
    AtLeastOnce(w, q + 1 - h);
    assert w * (q + 1 - h) == w * q + w - h * w;
  }

  lemma LastRow(r: Rect, n: nat)
    requires Proper(r) && n < Total(r)
    ensures r.left <= Column(r, n) <= r.right && r.top <= Row(r, n) <= r.bottom
  {
    QuotientBound(n, Wide(r), r.bottom + 1 - r.top);
  }

  /** The state of the producer after n calls, in terms of n. */
  ghost predicate AtPlace(r: Rect, n: nat, p: Producer)
    requires Proper(r)
  {
    p.x == Column(r, n) && p.y == Byte(Row(r, n)) && p.step == Wide(r) - 1 - n % Wide(r)
  }

  ghost predicate Counted(total: int, n: nat, p: Producer)
    requires n <= total
  {
    p.left == Short(total - n) && p.producing == (n < total) && p.count == if n < total then n + 1 else n
  }

  ghost predicate At(t: Corners, r: Rect, n: nat, p: Producer)
    requires Proper(r) && n <= Total(r)
  {
    p.A == CornerWeights(t, Column(r, n), Row(r, n)) && AtPlace(r, n, p) && Counted(Total(r), n, p)
  }

  lemma WeightsStep(t: Corners, x: int, y: int, d: int)
    ensures Plus(CornerWeights(t, x, y), Times(32.0, DeltaX(t))) == CornerWeights(t, x + 1, y)
    ensures Plus(CornerWeights(t, x + d, y), Minus(Times(32.0, DeltaY(t)), Times((32 * d) as real, DeltaX(t)))) == CornerWeights(t, x, y + 1)
  {
    hide AtOrigin, DeltaX, DeltaY;
    var dx, dy := DeltaX(t), DeltaY(t);
    var fx, fy, fd := (32 * x) as real, (32 * y) as real, (32 * d) as real;
    assert (32 * (x + 1)) as real == fx + 32.0 && (32 * (y + 1)) as real == fy + 32.0 && (32 * (x + d)) as real == fx + fd;
    TimesPlus(fx, 32.0, dx);
    TimesPlus(fy, 32.0, dy);
    TimesPlus(fx, fd, dx);
    hide Times;
  }

  lemma StartIsAt(t: Corners, r: Rect)
    requires Proper(r)
    ensures 0 < Total(r) <= 0x1_0000 && At(t, r, 0, Start(t, r))
  {
    Product(r.bottom + 1 - r.top, Wide(r));
    hide Short, Byte;
    StartPlace(t, r);
    hide AtPlace, AtOrigin, DeltaX, DeltaY, Times;
    assert Column(r, 0) == r.left && Row(r, 0) == r.top by { DivUnique(0, Wide(r), 0, 0); }
  }

  lemma StartPlace(t: Corners, r: Rect)
    requires Proper(r)
    ensures AtPlace(r, 0, Start(t, r))
  {
    DivUnique(0, Wide(r), 0, 0);
    assert Byte(r.left) == r.left && Byte(r.right - r.left) == r.right - r.left;
    hide AtOrigin, DeltaX, DeltaY, Times, Short, Byte;
  }

  lemma Product(h: int, w: int)
    requires 1 <= h <= 256 && 1 <= w <= 256
    ensures 1 <= h * w <= 0x1_0000
  {
    NotNegative(h - 1, w);
    NotNegative(256 - h, w);
    assert (h - 1) * w == h * w - w && (256 - h) * w == 256 * w - h * w;
  }

  lemma NotNegative(p: int, q: int)
    requires p >= 0 && q >= 0
    ensures p * q >= 0
  {
  }

  /** The counter is stored in a halfword, but the count of blocks is found to have run out only
      when it has, even if it does not fit. */
  lemma CountsDown(left: int)
    requires 0 < left <= 0x1_0000
    ensures Short(Unsigned(Short(left) - 1)) == Short(left - 1)
    ensures Unsigned(Short(left) - 1) == 0 <==> left == 1
  {
  }

  /** The fields a producer never changes. */
  ghost predicate Fixed(t: Corners, r: Rect, p: Producer) {
    var s := Start(t, r);
    p.dx32 == s.dx32 && p.dy32 == s.dy32 && p.stepStart == s.stepStart && p.blockLeft == s.blockLeft
  }

  lemma PlaceStep(t: Corners, r: Rect, n: nat, p: Producer)
    requires Proper(r) && n < Total(r) && AtPlace(r, n, p) && Fixed(t, r, p)
    ensures var (b, h, q) := Produce(p);
            && AtPlace(r, n + 1, q) && b.bx == Column(r, n) && b.by_ == Row(r, n)
            && h == Column(r, n + 1) + 256 * Row(r, n + 1)
  {
    LastRow(r, n);
    DivStep(n, Wide(r));
    SmallByte(r.right - r.left);
    assert Column(r, n + 1) == if p.step == 0 then r.left else Column(r, n) + 1;
    assert Row(r, n + 1) == if p.step == 0 then Row(r, n) + 1 else Row(r, n);
    SmallByte(Row(r, n));
    SmallByte(Column(r, n + 1));
    if p.step > 0 {
      SmallByte(p.step - 1);
    }
    hide AtOrigin, DeltaX, DeltaY, Times, Short, Byte, Total, Column, Row, Unsigned;
  }

  lemma SmallByte(x: int)
    requires 0 <= x < 256
    ensures Byte(x) == x
  {
  }

  lemma CountStep(total: int, n: nat, p: Producer)
    requires n < total <= 0x1_0000 && Counted(total, n, p)
    ensures Counted(total, n + 1, Produce(p).2)
  {
    CountsDown(total - n);
    hide Short, Unsigned, Byte, Plus;
  }

  lemma CornerStep(t: Corners, r: Rect, n: nat, p: Producer)
    requires Proper(r) && n < Total(r) && AtPlace(r, n, p) && Fixed(t, r, p)
    requires p.A == CornerWeights(t, Column(r, n), Row(r, n))
    ensures Produce(p).2.A == CornerWeights(t, Column(r, n + 1), Row(r, n + 1))
  {
    var x, y := Column(r, n), Row(r, n);
    LastRow(r, n);
    DivStep(n, Wide(r));
    assert p.step == 0 ==> x == r.left + (r.right - r.left);
    assert Column(r, n + 1) == if p.step == 0 then r.left else x + 1;
    assert Row(r, n + 1) == if p.step == 0 then y + 1 else y;
    hide Column, Row, Total, AtPlace;
    WeightsStep(t, x, y, 0);
    WeightsStep(t, r.left, y, r.right - r.left);
    assert (32 * (r.right - r.left)) as real == (32 * r.right) as real - (32 * r.left) as real;
    hide CornerWeights, Times, DeltaX, DeltaY, Short, Unsigned, AtOrigin, Byte, Plus, Minus;
  }

  lemma ProduceStep(t: Corners, r: Rect, n: nat, p: Producer)
    requires Proper(r) && n < Total(r) <= 0x1_0000 && At(t, r, n, p) && Fixed(t, r, p)
    ensures var (b, h, q) := Produce(p); At(t, r, n + 1, q) && Fixed(t, r, q)
  {
    PlaceStep(t, r, n, p);
    CountStep(Total(r), n, p);
    CornerStep(t, r, n, p);
    hide CornerWeights, Times, Total, DeltaX, DeltaY, Short, Unsigned, AtOrigin, Byte, Plus, Minus, Column, Row, AtPlace, Counted;
  }

  lemma {:induction false} CallsAreAt(t: Corners, r: Rect, n: nat)
    requires Proper(r) && n <= Total(r)
    ensures At(t, r, n, AfterCalls(t, r, n)) && Fixed(t, r, AfterCalls(t, r, n))
  {
    StartIsAt(t, r);
    if n > 0 {
      CallsAreAt(t, r, n - 1);
      ProduceStep(t, r, n - 1, AfterCalls(t, r, n - 1));
    }
  }

  /** Call n gives the n-th block of the rectangle with the weights at its corner, and returns the
      place of the block after it; the producer stops after exactly as many calls as there are
      blocks, and has then given up its own reference to the triangle. */
  lemma BlocksInOrder(t: Corners, r: Rect, n: nat)
    requires Proper(r) && n < Total(r)
    ensures var p := AfterCalls(t, r, n);
            var (block, hash, q) := Produce(p);
            && p.producing && (q.producing <==> n + 1 < Total(r))
            && block == Block(Column(r, n), Row(r, n), CornerWeights(t, Column(r, n), Row(r, n)), 256)
            && hash == Column(r, n + 1) + 256 * Row(r, n + 1)
            && q.count == if n + 1 < Total(r) then n + 2 else n + 1
  {
    CallsAreAt(t, r, n);
    StartIsAt(t, r);
    PlaceStep(t, r, n, AfterCalls(t, r, n));
    CountStep(Total(r), n, AfterCalls(t, r, n));
    hide CornerWeights, Total, AtPlace, Column, Row, Fixed, AfterCalls, Byte, Short, Unsigned, Plus;
  }

  /** The returned number, cut to 16 bits as the scheduler does, is the all-ones hash that stands for
      an empty entry exactly if the next place is column 255 of row 255. */
  lemma UnsetHashIsLastPlace(t: Corners, r: Rect, n: nat)
    requires Proper(r) && n < Total(r)
    ensures Produce(AfterCalls(t, r, n)).1 % 0x1_0000 == 0xFFFF <==> Column(r, n + 1) == 255 && Row(r, n + 1) == 255
  {
    hide AfterCalls, Produce, Total, CornerWeights;
    BlocksInOrder(t, r, n);
    LastRow(r, n);
    DivStep(n, Wide(r));
    var c, y := Column(r, n + 1), Row(r, n + 1);
    assert 0 <= c < 256 && 0 <= y <= 256;
    hide Column, Row;
    TwoBytes(c, y);
  }

  lemma TwoBytes(c: int, y: int)
    requires 0 <= c < 256 && 0 <= y <= 256
    ensures (c + 256 * y) % 0x1_0000 == 0xFFFF <==> c == 255 && y == 255
  {
  }

  lemma TurnIsInRange(r: Rect, x: int, y: int)
    requires Proper(r) && r.left <= x <= r.right && r.top <= y <= r.bottom
    ensures 0 <= (y - r.top) * Wide(r) + (x - r.left) < Total(r)
  {
    var w := Wide(r);
    assert 0 <= (y - r.top) * w;
    assert (r.bottom + 1 - r.top) * w == (y - r.top) * w + (r.bottom + 1 - y) * w;
    AtLeastOnce(w, r.bottom + 1 - y);
  }

  /** Every block of the rectangle has its turn, and only one. */
  lemma EachBlockOnce(r: Rect, x: int, y: int)
    requires Proper(r) && r.left <= x <= r.right && r.top <= y <= r.bottom
    ensures var n := (y - r.top) * Wide(r) + (x - r.left);
            && 0 <= n < Total(r)
            && forall m: nat :: m < Total(r) ==> (Column(r, m) == x && Row(r, m) == y <==> m == n)
  {
    var w, q, c := Wide(r), y - r.top, x - r.left;
    var n := q * w + c;
    TurnIsInRange(r, x, y);
    DivUnique(n, w, q, c);
    forall m: nat | m < Total(r) ensures Column(r, m) == x && Row(r, m) == y <==> m == n {
      Parts(m, w);
    }
  }
}
