/** What the coarse motion search of src/cg_interface.c computes, block by block. */
module MotionSearch {
  import opened Shaders
  import opened Sums

  type Offset = (int, int)

  // ----- The cost of moving a block -----

  /** How far the frame, moved by an offset, differs from the average at each pixel. */
  function Differences(frame: Texture, average: Texture, offset: Offset): Grid {
    (x: int, y: int) => Difference(frame(x + offset.0, y + offset.1), average(x, y))
  }

  function Penalty(weight: Offset): (p: real)
    ensures p >= 0.0
    ensures weight != (0, 0) ==> p >= 1.0
  {
    SquareIsLarge(weight.0);
    SquareIsLarge(weight.1);
    (weight.0 * weight.0) as real + (weight.1 * weight.1) as real
  }

  lemma SquareIsLarge(n: int)
    ensures n * n >= 0
    ensures n != 0 ==> n * n >= 1
  {
  }

  /** The differences in the 8 by 8 pixels from (x, y) on, and 64 times the penalty. */
  function Window(frame: Texture, average: Texture, offset: Offset, weight: Offset): Grid {
    (x: int, y: int) => BlockSum(Differences(frame, average, offset), x, y, 8, 8) + 64.0 * Penalty(weight)
  }

  /** What the accumulator holds at (x, y) after dy rows of 8 steps and dx steps more. */
  function Partial(frame: Texture, average: Texture, offset: Offset, weight: Offset, x: int, y: int,
                   dx: nat, dy: nat): real
  {
    var d := Differences(frame, average, offset);
    BlockSum(d, x, y, 8, dy) + RowSum(d, x, y + dy, dx) + (8 * dy + dx) as real * Penalty(weight)
  }

  lemma SadIsPartial(frame: Texture, average: Texture, accum: Texture, x: int, y: int, offset: Offset,
                     weight: Offset, dx: nat, dy: nat)
    requires accum(x, y).z == Partial(frame, average, offset, weight, x, y, dx, dy)
    ensures Sad(frame, average, accum, x, y, offset, (dx, dy), weight) ==
      Texel(offset.0 as real, offset.1 as real, Partial(frame, average, offset, weight, x, y, dx + 1, dy), 1.0)
  {
    var d := Differences(frame, average, offset);
    assert RowSum(d, x, y + dy, dx + 1) == RowSum(d, x, y + dy, dx) + d(x + dx, y + dy);
    assert (8 * dy + (dx + 1)) as real * Penalty(weight) == (8 * dy + dx) as real * Penalty(weight) + Penalty(weight);
  }

  /** Eight steps in a row make up one more row of the window. */
  lemma RowIsDone(frame: Texture, average: Texture, offset: Offset, weight: Offset, x: int, y: int, dy: nat)
    ensures Partial(frame, average, offset, weight, x, y, 8, dy) ==
            Partial(frame, average, offset, weight, x, y, 0, dy + 1)
  {
  }

  lemma WindowIsDone(frame: Texture, average: Texture, offset: Offset, weight: Offset, x: int, y: int)
    ensures Partial(frame, average, offset, weight, x, y, 0, 0) == 0.0
    ensures Partial(frame, average, offset, weight, x, y, 0, 8) == Window(frame, average, offset, weight)(x, y)
  {
  }

  // ----- Halving -----

  predicate PowerOfTwo(n: int) {
    n == 1 || (n > 1 && n % 2 == 0 && PowerOfTwo(n / 2))
  }

  function Costs(t: Texture): Grid {
    (x: int, y: int) => t(x, y).z
  }

  /** One texel for each n by n block: its corner, with the costs added up. */
  function Shrunk(t: Texture, n: nat, x: int, y: int): Texel {
    t(n * x, n * y).(z := BlockSum(Costs(t), n * x, n * y, n, n))
  }

  lemma ShrunkByOne(t: Texture, x: int, y: int)
    ensures Shrunk(t, 1, x, y) == t(x, y)
  {
    var c := Costs(t);
    assert BlockSum(c, x, y, 1, 1) == BlockSum(c, x, y, 1, 0) + RowSum(c, x, y, 1);
    assert RowSum(c, x, y, 1) == RowSum(c, x, y, 0) + c(x, y);
    assert 1 * x == x && 1 * y == y;
  }

  /** Halving a picture that was shrunk by n makes it one shrunk by 2n. */
  lemma HalvingShrinks(t: Texture, half: Texture, n: nat, x: int, y: int)
    requires forall i, j | 2 * x <= i <= 2 * x + 1 && 2 * y <= j <= 2 * y + 1 :: half(i, j) == Shrunk(t, n, i, j)
    ensures DecimateAddVector(half, x, y) == Shrunk(t, 2 * n, x, y)
  {
    Corners(n, x);
    Corners(n, y);
    Quarters(Costs(t), 2 * n * x, 2 * n * y, n);
  }

  lemma Corners(n: nat, x: int)
    ensures n * (2 * x) == 2 * n * x && n * (2 * x + 1) == 2 * n * x + n
  {
  }

  /** The cost of a block of the vector picture: four overlapping windows. */
  function Cost(frame: Texture, average: Texture, x: int, y: int, offset: Offset): real {
    BlockSum(Window(frame, average, offset, offset), 2 * x, 2 * y, 2, 2)
  }

  lemma WindowIsLarge(frame: Texture, average: Texture, offset: Offset, x: int, y: int)
    ensures Window(frame, average, offset, offset)(x, y) >= 64.0 * Penalty(offset)
  {
    var d := Differences(frame, average, offset);
    forall i, j ensures d(i, j) >= 0.0 {
      assert d(i, j) == Difference(frame(i + offset.0, j + offset.1), average(i, j));
    }
    BlockAtLeast(d, x, y, 8, 8, 0.0);
  }

  /** Moving a block never costs less than 256 times the square of the distance. */
  lemma CostIsLarge(frame: Texture, average: Texture, x: int, y: int, offset: Offset)
    ensures Cost(frame, average, x, y, offset) >= 256.0 * Penalty(offset)
  {
    var w := Window(frame, average, offset, offset);
    forall i, j ensures w(i, j) >= 64.0 * Penalty(offset) {
      WindowIsLarge(frame, average, offset, i, j);
    }
    BlockAtLeast(w, 2 * x, 2 * y, 2, 2, 64.0 * Penalty(offset));
  }

  /** The two pixels agree in luma and in both chroma parts. */
  predicate SamePixel(a: Texel, b: Texel) {
    a.x == b.x && a.y == b.y && a.z == b.z
  }

  /** The frame, moved by the offset, is the average all over the w by h pixels from (x, y) on. */
  ghost predicate SamePicture(frame: Texture, average: Texture, offset: Offset, x: int, y: int, w: nat, h: nat) {
    forall i, j | x <= i < x + w && y <= j < y + h :: SamePixel(frame(i + offset.0, j + offset.1), average(i, j))
  }

  lemma DifferenceAt(frame: Texture, average: Texture, offset: Offset, i: int, j: int)
    ensures var d := Differences(frame, average, offset)(i, j);
      d >= 0.0 && (d == 0.0 <==> SamePixel(frame(i + offset.0, j + offset.1), average(i, j)))
  {
    DifferenceCountsParts(frame(i + offset.0, j + offset.1), average(i, j));
  }

  /** A window costs no more than the penalty just where no pixel differs in any of its parts. */
  lemma WindowIsPenaltyIff(frame: Texture, average: Texture, offset: Offset, x: int, y: int)
    ensures Window(frame, average, offset, offset)(x, y) == 64.0 * Penalty(offset)
       <==> SamePicture(frame, average, offset, x, y, 8, 8)
  {
    var d := Differences(frame, average, offset);
    forall i, j ensures d(i, j) >= 0.0 {
      DifferenceAt(frame, average, offset, i, j);
    }
    BlockIsZeroIff(d, x, y, 8, 8);
    ZeroInIsSame(frame, average, offset, x, y, 8, 8);
  }

  lemma ZeroInIsSame(frame: Texture, average: Texture, offset: Offset, x: int, y: int, w: nat, h: nat)
    ensures ZeroIn(Differences(frame, average, offset), x, y, w, h)
       <==> SamePicture(frame, average, offset, x, y, w, h)
  {
    var d := Differences(frame, average, offset);
    forall i, j | x <= i < x + w && y <= j < y + h
      ensures d(i, j) == 0.0 <==> SamePixel(frame(i + offset.0, j + offset.1), average(i, j))
    {
      DifferenceAt(frame, average, offset, i, j);
    }
  }

  /** The pixels that count for a block are the 9 by 9 that its four windows cover. */
  lemma CostIsPenaltyIff(frame: Texture, average: Texture, x: int, y: int, offset: Offset)
    ensures Cost(frame, average, x, y, offset) == 256.0 * Penalty(offset)
       <==> SamePicture(frame, average, offset, 2 * x, 2 * y, 9, 9)
  {
    var w := Window(frame, average, offset, offset);
    WindowIsLargeOrSame(frame, average, offset, 2 * x, 2 * y);
    WindowIsLargeOrSame(frame, average, offset, 2 * x + 1, 2 * y);
    WindowIsLargeOrSame(frame, average, offset, 2 * x, 2 * y + 1);
    WindowIsLargeOrSame(frame, average, offset, 2 * x + 1, 2 * y + 1);
    TwoByTwo(w, 2 * x, 2 * y);
    FourWindows(frame, average, offset, 2 * x, 2 * y);
  }

  lemma WindowIsLargeOrSame(frame: Texture, average: Texture, offset: Offset, x: int, y: int)
    ensures var cost := Window(frame, average, offset, offset)(x, y);
      && cost >= 64.0 * Penalty(offset)
      && (cost == 64.0 * Penalty(offset) <==> SamePicture(frame, average, offset, x, y, 8, 8))
  {
    WindowIsLarge(frame, average, offset, x, y);
    WindowIsPenaltyIff(frame, average, offset, x, y);
  }

  lemma TwoByTwo(f: Grid, x: int, y: int)
    ensures BlockSum(f, x, y, 2, 2) == f(x, y) + f(x + 1, y) + f(x, y + 1) + f(x + 1, y + 1)
  {
    assert BlockSum(f, x, y, 2, 2) == BlockSum(f, x, y, 2, 1) + RowSum(f, x, y + 1, 2);
    assert BlockSum(f, x, y, 2, 1) == BlockSum(f, x, y, 2, 0) + RowSum(f, x, y, 2);
    RowOfTwo(f, x, y);
    RowOfTwo(f, x, y + 1);
  }

  lemma RowOfTwo(f: Grid, x: int, y: int)
    ensures RowSum(f, x, y, 2) == f(x, y) + f(x + 1, y)
  {
    assert RowSum(f, x, y, 2) == RowSum(f, x, y, 1) + f(x + 1, y);
    assert RowSum(f, x, y, 1) == RowSum(f, x, y, 0) + f(x, y);
  }

  lemma FourWindows(frame: Texture, average: Texture, offset: Offset, x: int, y: int)
    ensures SamePicture(frame, average, offset, x, y, 9, 9) <==>
      && SamePicture(frame, average, offset, x, y, 8, 8) && SamePicture(frame, average, offset, x + 1, y, 8, 8)
      && SamePicture(frame, average, offset, x, y + 1, 8, 8) && SamePicture(frame, average, offset, x + 1, y + 1, 8, 8)
  {
  }

  lemma {:induction false} RowSame(f: Grid, g: Grid, x: int, y: int, n: nat)
    requires forall i | x <= i < x + n :: f(i, y) == g(i, y)
    ensures RowSum(f, x, y, n) == RowSum(g, x, y, n)
  {
    if n > 0 { RowSame(f, g, x, y, n - 1); }
  }

  lemma {:induction false} BlockSame(f: Grid, g: Grid, x: int, y: int, w: nat, h: nat)
    requires forall i, j | x <= i < x + w && y <= j < y + h :: f(i, j) == g(i, j)
    ensures BlockSum(f, x, y, w, h) == BlockSum(g, x, y, w, h)
  {
    if h > 0 {
      BlockSame(f, g, x, y, w, h - 1);
      RowSame(f, g, x, y + h - 1, w);
    }
  }

  /** The accumulator, halved once, holds the costs of the candidate. */
  lemma ShrunkWindowsAreCosts(frame: Texture, average: Texture, offset: Offset, t: Texture, x: int, y: int)
    requires forall i, j | 2 * x <= i <= 2 * x + 1 && 2 * y <= j <= 2 * y + 1 ::
      t(i, j) == Texel(offset.0 as real, offset.1 as real, Window(frame, average, offset, offset)(i, j), 1.0)
    ensures Shrunk(t, 2, x, y) == Candidate(offset, Cost(frame, average, x, y, offset))
  {
    BlockSame(Costs(t), Window(frame, average, offset, offset), 2 * x, 2 * y, 2, 2);
  }

  // ----- The running minimum -----

  function Candidate(offset: Offset, cost: real): Texel {
    Texel(offset.0 as real, offset.1 as real, cost, 1.0)
  }

  predicate Within(offset: Offset, rad: int) {
    -rad <= offset.0 <= rad && -rad <= offset.1 <= rad
  }

  /** The order in which the offsets are tried. */
  predicate Before(a: Offset, b: Offset) {
    a.1 < b.1 || (a.1 == b.1 && a.0 < b.0)
  }

  /** An offset that has been tried when `next` is about to be. */
  predicate Tried(offset: Offset, rad: int, next: Offset) {
    Within(offset, rad) && Before(offset, next)
  }

  /** None has been good enough to replace the vector the block started with. */
  ghost predicate NoneTaken(start: Texel, cost: Offset -> real, rad: int, next: Offset) {
    forall c | Tried(c, rad, next) :: start.w != 0.0 && cost(c) > start.z
  }

  /** No offset is cheaper than this one, and those tried after it are dearer. */
  ghost predicate LastCheapest(offset: Offset, cost: Offset -> real, rad: int, next: Offset) {
    && Tried(offset, rad, next)
    && forall c | Tried(c, rad, next) :: cost(offset) <= cost(c) && (Before(offset, c) ==> cost(offset) < cost(c))
  }

  /** The vector a block has when `next` is about to be tried. */
  ghost predicate Leads(start: Texel, v: Texel, cost: Offset -> real, rad: int, next: Offset) {
    || (v == start && NoneTaken(start, cost, rad, next))
    || exists o ::
        && LastCheapest(o, cost, rad, next) && v == Candidate(o, cost(o))
        && (start.w != 0.0 ==> cost(o) <= start.z)
  }

  /** One round: whichever of the two vectors the shader keeps leads afterwards. */
  lemma UpdateLeads(start: Texel, v: Texel, cost: Offset -> real, rad: int, o: Offset)
    requires Leads(start, v, cost, rad, o) && Within(o, rad) && cost(o) >= 0.0
    ensures Leads(start, VectorUpdate(v, Candidate(o, cost(o))), cost, rad, (o.0 + 1, o.1))
  {
    var next := (o.0 + 1, o.1);
    assert forall c :: Tried(c, rad, next) <==> Tried(c, rad, o) || c == o;
    var v' := VectorUpdate(v, Candidate(o, cost(o)));
    if v == start && NoneTaken(start, cost, rad, o) {
      if v' == Candidate(o, cost(o)) {
        assert LastCheapest(o, cost, rad, next);
      }
    } else {
      var p :| LastCheapest(p, cost, rad, o) && v == Candidate(p, cost(p)) && (start.w != 0.0 ==> cost(p) <= start.z);
      if cost(o) <= cost(p) {
        assert LastCheapest(o, cost, rad, next);
      } else {
        assert LastCheapest(p, cost, rad, next);
      }
    }
  }

  /** The end of one row of offsets is the start of the next. */
  lemma NextRow(start: Texel, v: Texel, cost: Offset -> real, rad: int, yy: int)
    requires Leads(start, v, cost, rad, (rad + 1, yy))
    ensures Leads(start, v, cost, rad, (-rad, yy + 1))
  {
    var a, b := (rad + 1, yy), (-rad, yy + 1);
    assert forall c :: Tried(c, rad, a) <==> Tried(c, rad, b);
    if !(v == start && NoneTaken(start, cost, rad, a)) {
      var o :| LastCheapest(o, cost, rad, a) && v == Candidate(o, cost(o)) && (start.w != 0.0 ==> cost(o) <= start.z);
      assert LastCheapest(o, cost, rad, b);
    }
  }

  function PastAll(rad: int): Offset {
    (-rad, rad + 1)
  }

  /** What a search makes of a block: the cheapest offset, the last in scan order where several
      are; blocks that were marked beforehand stay as they are. */
  ghost predicate Found(marked: bool, v: Texel, cost: Offset -> real, rad: int) {
    if marked then v == Texel(0.0, 0.0, 0.0, 1.0)
    else exists o ::
      && Within(o, rad) && v == Candidate(o, cost(o))
      && forall c | Within(c, rad) :: cost(o) <= cost(c) && (Before(o, c) ==> cost(o) < cost(c))
  }

  lemma SearchFinds(marked: bool, start: Texel, v: Texel, cost: Offset -> real, rad: int)
    requires rad >= 0 && Leads(start, v, cost, rad, PastAll(rad))
    requires if marked then start == Texel(0.0, 0.0, 0.0, 1.0) else start.w == 0.0
    requires forall o :: cost(o) >= 256.0 * Penalty(o)
    ensures Found(marked, v, cost, rad)
  {
    assert forall c :: Tried(c, rad, PastAll(rad)) <==> Within(c, rad);
    assert Within((0, 0), rad);
    if !(v == start && NoneTaken(start, cost, rad, PastAll(rad))) {
      var o :|
        && LastCheapest(o, cost, rad, PastAll(rad)) && v == Candidate(o, cost(o))
        && (start.w != 0.0 ==> cost(o) <= start.z);
      assert Within(o, rad);
      if marked {
        assert cost(o) >= 256.0 * Penalty(o);
      }
    }
  }

  // ----- Blocks of little contrast -----

  /** In how many of its parts each pixel differs visibly. */
  function Hits(frame: Texture, average: Texture, threshold: real): Grid {
    (x: int, y: int) => ThreshDiff(DiffFrame(frame(x, y), average(x, y)), threshold).x
  }

  /** The mean of an n by n block. */
  function Mean(f: Grid, n: nat, x: int, y: int): real
    requires n > 0
  {
    BlockSum(f, n * x, n * y, n, n) / (n * n) as real
  }

  lemma MeanOfOne(f: Grid, x: int, y: int)
    ensures Mean(f, 1, x, y) == f(x, y)
  {
    assert BlockSum(f, x, y, 1, 1) == BlockSum(f, x, y, 1, 0) + RowSum(f, x, y, 1);
    assert RowSum(f, x, y, 1) == RowSum(f, x, y, 0) + f(x, y);
    assert 1 * x == x && 1 * y == y;
  }

  /** The mean of the means of the quarters is the mean of the whole. */
  lemma DecimateAddIsMean(f: Grid, t: Texture, n: nat, x: int, y: int)
    requires n > 0
    requires forall i, j | 2 * x <= i <= 2 * x + 1 && 2 * y <= j <= 2 * y + 1 :: t(i, j).x == Mean(f, n, i, j)
    ensures DecimateAdd(t, x, y).x == Mean(f, 2 * n, x, y)
  {
    Corners(n, x);
    Corners(n, y);
    var x', y' := 2 * n * x, 2 * n * y;
    Quarters(f, x', y', n);
    var topLeft, topRight := BlockSum(f, x', y', n, n), BlockSum(f, x' + n, y', n, n);
    MeanOfMeans(topLeft, topRight, BlockSum(f, x', y' + n, n, n), BlockSum(f, x' + n, y' + n, n, n), n);
  }

  lemma MeanOfMeans(a: real, b: real, c: real, d: real, n: nat)
    requires n > 0
    ensures (n * n) as real > 0.0 && ((2 * n) * (2 * n)) as real > 0.0
    ensures var nn := (n * n) as real;
      (a / nn + b / nn + c / nn + d / nn) / 4.0 == (a + b + c + d) / ((2 * n) * (2 * n)) as real
  {
    assert n * n > 0 && (2 * n) * (2 * n) == 4 * (n * n);
    var nn := (n * n) as real;
    var q := a / nn + b / nn + c / nn + d / nn;
    assert q * nn == a + b + c + d;
    assert (q / 4.0) * (4.0 * nn) == a + b + c + d;
  }

  /** No part of any pixel of the 8 by 8 block differs by the threshold or more. */
  ghost predicate LowContrast(frame: Texture, average: Texture, threshold: real, x: int, y: int) {
    forall i, j | 8 * x <= i < 8 * x + 8 && 8 * y <= j < 8 * y + 8 ::
      Invisible(DiffFrame(frame(i, j), average(i, j)), threshold)
  }

  predicate Invisible(d: Texel, threshold: real) {
    d.x < threshold && d.y < threshold && d.z < threshold
  }

  lemma HitIffVisible(frame: Texture, average: Texture, threshold: real, i: int, j: int)
    ensures Hits(frame, average, threshold)(i, j) >= 0.0
    ensures Hits(frame, average, threshold)(i, j) == 0.0
       <==> Invisible(DiffFrame(frame(i, j), average(i, j)), threshold)
  {
    assert Hits(frame, average, threshold)(i, j) == ThreshDiff(DiffFrame(frame(i, j), average(i, j)), threshold).x;
  }

  lemma NoHitsIffLowContrast(f: Grid, frame: Texture, average: Texture, threshold: real, x: int, y: int)
    requires f == Hits(frame, average, threshold)
    ensures ZeroIn(f, 8 * x, 8 * y, 8, 8) <==> LowContrast(frame, average, threshold, x, y)
  {
    forall i, j ensures f(i, j) == 0.0 <==> Invisible(DiffFrame(frame(i, j), average(i, j)), threshold) {
      HitIffVisible(frame, average, threshold, i, j);
    }
  }

  /** The default block threshold of 8/64 is kept in an integer and so is 0 in fact: one visible
      difference anywhere in the block is enough to have it searched. */
  lemma MarkedIffLowContrast(frame: Texture, average: Texture, threshold: real, x: int, y: int)
    ensures Mean(Hits(frame, average, threshold), 8, x, y) <= 0.0 <==> LowContrast(frame, average, threshold, x, y)
  {
    var f := Hits(frame, average, threshold);
    forall i, j ensures f(i, j) >= 0.0 {
      HitIffVisible(frame, average, threshold, i, j);
    }
    BlockIsZeroIff(f, 8 * x, 8 * y, 8, 8);
    NoHitsIffLowContrast(f, frame, average, threshold, x, y);
  }
}
