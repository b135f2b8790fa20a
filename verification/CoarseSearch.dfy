/** The coarse motion search of src/cg_interface.c, over textures that take turns. */
module CoarseSearch {
  import opened Shaders
  import opened Sums
  import opened MotionSearch
  import opened Gpu

  // ----- SAD -----

  function SadShade(frame: Texture, average: Texture, accum: Texture, offset: Offset, step: Offset,
                    weight: Offset): Texture
  {
    (x: int, y: int) => Sad(frame, average, accum, x, y, offset, step, weight)
  }

  /** Every pixel has added up the differences of dy rows of 8 steps and of dx steps more. */
  ghost predicate Accumulated(t: Texture, frame: Texture, average: Texture, offset: Offset, weight: Offset,
                              w: int, h: int, dx: nat, dy: nat)
  {
    forall x, y | 0 <= x < w && 0 <= y < h :: HasAdded(t, frame, average, offset, weight, x, y, dx, dy)
  }

  predicate HasAdded(t: Texture, frame: Texture, average: Texture, offset: Offset, weight: Offset,
                     x: int, y: int, dx: nat, dy: nat)
  {
    && t(x, y).z == Partial(frame, average, offset, weight, x, y, dx, dy)
    && (dx + dy > 0 ==> t(x, y).(z := 0.0) == Texel(offset.0 as real, offset.1 as real, 0.0, 1.0))
  }

  lemma StepAdds(t: Texture, before: Texture, accum: Texture, frame: Texture, average: Texture, offset: Offset,
                 weight: Offset, w: int, h: int, dx: nat, dy: nat, dx': nat)
    requires Accumulated(accum, frame, average, offset, weight, w, h, dx, dy) && dx' == dx + 1
    requires t == Painted(before, SadShade(frame, average, accum, offset, (dx, dy), weight), w, h)
    ensures Accumulated(t, frame, average, offset, weight, w, h, dx', dy)
  {
    forall x, y | 0 <= x < w && 0 <= y < h ensures HasAdded(t, frame, average, offset, weight, x, y, dx', dy) {
      assert HasAdded(accum, frame, average, offset, weight, x, y, dx, dy);
      SadIsPartial(frame, average, accum, x, y, offset, weight, dx, dy);
      assert t(x, y) == Sad(frame, average, accum, x, y, offset, (dx, dy), weight);
    }
  }

  lemma RowAdds(t: Texture, frame: Texture, average: Texture, offset: Offset, weight: Offset, w: int, h: int,
                dy: nat, dy': nat)
    requires Accumulated(t, frame, average, offset, weight, w, h, 8, dy) && dy' == dy + 1
    ensures Accumulated(t, frame, average, offset, weight, w, h, 0, dy')
  {
    forall x, y | 0 <= x < w && 0 <= y < h ensures HasAdded(t, frame, average, offset, weight, x, y, 0, dy') {
      assert HasAdded(t, frame, average, offset, weight, x, y, 8, dy);
      RowIsDone(frame, average, offset, weight, x, y, dy);
    }
  }

  /** What SAD leaves behind: the offset, and the sum of the 64 differences. */
  ghost predicate HoldsWindows(t: Texture, frame: Texture, average: Texture, offset: Offset, weight: Offset,
                               w: int, h: int)
  {
    forall x, y | 0 <= x < w && 0 <= y < h ::
      t(x, y) == Texel(offset.0 as real, offset.1 as real, Window(frame, average, offset, weight)(x, y), 1.0)
  }

  lemma AllAdded(t: Texture, frame: Texture, average: Texture, offset: Offset, weight: Offset, w: int, h: int)
    requires Accumulated(t, frame, average, offset, weight, w, h, 0, 8)
    ensures HoldsWindows(t, frame, average, offset, weight, w, h)
  {
    forall x, y | 0 <= x < w && 0 <= y < h
      ensures t(x, y) == Texel(offset.0 as real, offset.1 as real, Window(frame, average, offset, weight)(x, y), 1.0)
    {
      assert HasAdded(t, frame, average, offset, weight, x, y, 0, 8);
      WindowIsDone(frame, average, offset, weight, x, y);
    }
  }

  lemma NoneAdded(t: Texture, before: Texture, frame: Texture, average: Texture, offset: Offset, weight: Offset,
                  w: int, h: int)
    requires t == Painted(before, (x: int, y: int) => UNSET, w, h)
    ensures Accumulated(t, frame, average, offset, weight, w, h, 0, 0)
  {
    forall x, y | 0 <= x < w && 0 <= y < h ensures HasAdded(t, frame, average, offset, weight, x, y, 0, 0) {
      WindowIsDone(frame, average, offset, weight, x, y);
    }
  }

  /** SAD: 64 rounds between two accumulators that trade names before each. */
  method SumDifferences(g: Textures, ref: Role, avg: Role, w: int, h: int, offset: Offset, weight: Offset)
    requires g.Valid() && ref !in {Vector2, Vector3} && avg !in {Vector2, Vector3}
    requires 0 <= w <= g.width && 0 <= h <= g.padHeight
    modifies g`id, g`owner, g`store, g`draws
    ensures g.Valid() && g.Only({Vector2, Vector3})
    ensures HoldsWindows(g.Held(Vector2), old(g.Held(ref)), old(g.Held(avg)), offset, weight, w, h)
  {
    ghost var frame, average := g.Held(ref), g.Held(avg);
    ClearSums(g, w, h, frame, average, offset, weight);
    var dy := 0;
    while dy < 8
      invariant 0 <= dy <= 8 && g.Valid() && g.Only({Vector2, Vector3})
      invariant Accumulated(g.Held(Vector2), frame, average, offset, weight, w, h, 0, dy)
    {
      AccumulateRow(g, ref, avg, w, h, offset, dy, weight);
      dy := dy + 1;
    }
    AllAdded(g.Held(Vector2), frame, average, offset, weight, w, h);
  }

  method ClearSums(g: Textures, w: int, h: int, ghost frame: Texture, ghost average: Texture,
                   ghost offset: Offset, ghost weight: Offset)
    requires g.Valid() && 0 <= w <= g.width && 0 <= h <= g.padHeight
    modifies g`store, g`draws
    ensures g.Valid() && g.Only({Vector2}) && Accumulated(g.Held(Vector2), frame, average, offset, weight, w, h, 0, 0)
  {
    ghost var before := g.Held(Vector2);
    var zero := (x: int, y: int) => UNSET;
    g.Render(Vector2, {}, {}, zero, w, h);
    NoneAdded(g.Held(Vector2), before, frame, average, offset, weight, w, h);
  }

  /** The inner loop: one row of 8 steps. */
  method AccumulateRow(g: Textures, ref: Role, avg: Role, w: int, h: int, offset: Offset, dy: nat, weight: Offset)
    requires g.Valid() && ref !in {Vector2, Vector3} && avg !in {Vector2, Vector3}
    requires 0 <= w <= g.width && 0 <= h <= g.padHeight
    requires Accumulated(g.Held(Vector2), g.Held(ref), g.Held(avg), offset, weight, w, h, 0, dy)
    modifies g`id, g`owner, g`store, g`draws
    ensures g.Valid() && g.Only({Vector2, Vector3})
    ensures Accumulated(g.Held(Vector2), old(g.Held(ref)), old(g.Held(avg)), offset, weight, w, h, 0, dy + 1)
  {
    ghost var frame, average := g.Held(ref), g.Held(avg);
    var dx := 0;
    while dx < 8
      invariant 0 <= dx <= 8 && g.Valid() && g.Only({Vector2, Vector3})
      invariant Accumulated(g.Held(Vector2), frame, average, offset, weight, w, h, dx, dy)
    {
      AccumulateStep(g, ref, avg, w, h, offset, (dx, dy), weight);
      dx := dx + 1;
    }
    RowAdds(g.Held(Vector2), frame, average, offset, weight, w, h, dy, dy + 1);
  }

  /** One round: swap, and SAD_iterate. */
  method AccumulateStep(g: Textures, ref: Role, avg: Role, w: int, h: int, offset: Offset, step: Offset, weight: Offset)
    requires g.Valid() && ref !in {Vector2, Vector3} && avg !in {Vector2, Vector3}
    requires 0 <= w <= g.width && 0 <= h <= g.padHeight && step.0 >= 0 && step.1 >= 0
    requires Accumulated(g.Held(Vector2), g.Held(ref), g.Held(avg), offset, weight, w, h, step.0, step.1)
    modifies g`id, g`owner, g`store, g`draws
    ensures g.Valid() && g.Only({Vector2, Vector3})
    ensures Accumulated(g.Held(Vector2), old(g.Held(ref)), old(g.Held(avg)), offset, weight, w, h, step.0 + 1, step.1)
  {
    ghost var frame, average, sums := g.Held(ref), g.Held(avg), g.Held(Vector2);
    g.Swap(Vector3, Vector2);
    assert g.Held(ref) == frame && g.Held(avg) == average && g.Held(Vector3) == sums;
    var shade := SadShade(g.Held(ref), g.Held(avg), g.Held(Vector3), offset, step, weight);
    ghost var before := g.Held(Vector2);
    g.Render(Vector2, {ref, avg}, {Vector3}, shade, w, h);
    StepAdds(g.Held(Vector2), before, sums, frame, average, offset, weight, w, h, step.0, step.1, step.0 + 1);
  }

  // ----- vector_update -----

  function HalvedShade(t: Texture): Texture {
    (x: int, y: int) => DecimateAddVector(t, x, y)
  }

  function UpdateShade(vectors: Texture, candidates: Texture): Texture {
    (x: int, y: int) => VectorUpdate(vectors(x, y), candidates(x, y))
  }

  /** One texel for each n by n block of the original. */
  ghost predicate HoldsShrunk(t: Texture, original: Texture, n: nat, w: int, h: int) {
    forall x, y | 0 <= x < w && 0 <= y < h :: t(x, y) == Shrunk(original, n, x, y)
  }

  lemma HalvedIsShrunk(t: Texture, before: Texture, half: Texture, original: Texture, n: nat, w: int, h: int)
    requires HoldsShrunk(half, original, n, 2 * w, 2 * h) && t == Painted(before, HalvedShade(half), w, h)
    ensures HoldsShrunk(t, original, 2 * n, w, h)
  {
    forall x, y | 0 <= x < w && 0 <= y < h ensures t(x, y) == Shrunk(original, 2 * n, x, y) {
      HalvingShrinks(original, half, n, x, y);
      assert t(x, y) == DecimateAddVector(half, x, y);
    }
  }

  lemma UnshrunkIsShrunk(t: Texture, w: int, h: int)
    ensures HoldsShrunk(t, t, 1, w, h)
  {
    forall x, y ensures t(x, y) == Shrunk(t, 1, x, y) {
      ShrunkByOne(t, x, y);
    }
  }

  /** How far the halving has come: each texel stands for n by n, and this is known to be exact. */
  datatype Halving = Halving(n: nat, w: int, h: int, exact: bool)

  function Next(s: Halving): Halving {
    Halving(2 * s.n, Half(s.w), Half(s.h), s.exact && s.w % 2 == 0 && s.h % 2 == 0)
  }

  function Finish(i: int, s: Halving): Halving {
    if i <= 1 then s else Finish(i / 2, Next(s))
  }

  predicate Divides(factor: int, w: int, h: int) {
    PowerOfTwo(factor) && factor * (w / factor) == w && factor * (h / factor) == h
  }

  /** Starting from a whole number of blocks, every size the loop comes to is even. */
  lemma {:induction false} FinishIsExact(i: int, n: nat, across: int, down: int)
    requires PowerOfTwo(i)
    ensures Finish(i, Halving(n, i * across, i * down, true)) == Halving(i * n, across, down, true)
  {
    if i > 1 {
      var j := i / 2;
      assert i == 2 * j;
      NextIsExact(j, n, across, down);
      FinishIsExact(j, 2 * n, across, down);
      assert j * (2 * n) == (2 * j) * n by { Doubled(j, n); Doubled(n, j); }
    }
  }

  lemma NextIsExact(j: int, n: nat, across: int, down: int)
    ensures Next(Halving(n, (2 * j) * across, (2 * j) * down, true)) == Halving(2 * n, j * across, j * down, true)
  {
    Doubled(j, across);
    Doubled(j, down);
  }

  lemma Doubled(j: int, q: int)
    ensures (2 * j) * q == 2 * (j * q)
  {
  }

  /** vectorTexID, vector2TexID and vector3TexID. */
  datatype Buffers = Buffers(vectors: Texture, sums: Texture, spare: Texture)

  ghost function BuffersOf(g: Textures): Buffers
    requires g.Valid()
    reads g
  {
    Buffers(g.Held(Vector), g.Held(Vector2), g.Held(Vector3))
  }

  function HalvedOnce(b: Buffers, w: int, h: int): Buffers {
    Buffers(b.vectors, Painted(b.spare, HalvedShade(b.sums), Half(w), Half(h)), b.sums)
  }

  /** The two accumulators after the halving loop. */
  function Halved(b: Buffers, i: int, w: int, h: int): Buffers
    decreases i
  {
    if i <= 1 then b else Halved(HalvedOnce(b, w, h), i / 2, Half(w), Half(h))
  }

  /** All three after vector_update. */
  function Updated(b: Buffers, factor: int, w: int, h: int, vecWidth: int, vecHeight: int): Buffers {
    var q := Halved(b, factor, w, h);
    Buffers(Painted(q.spare, UpdateShade(q.vectors, q.sums), vecWidth, vecHeight), q.sums, q.vectors)
  }

  ghost predicate Follows(t: Texture, original: Texture, s: Halving) {
    s.exact ==> HoldsShrunk(t, original, s.n, s.w, s.h)
  }

  lemma {:induction false} HalvedFollows(b: Buffers, original: Texture, i: int, s: Halving)
    requires Follows(b.sums, original, s)
    ensures Follows(Halved(b, i, s.w, s.h).sums, original, Finish(i, s))
    ensures Halved(b, i, s.w, s.h).vectors == b.vectors
    decreases i
  {
    if i > 1 {
      var half := HalvedOnce(b, s.w, s.h);
      if Next(s).exact {
        assert s.w == 2 * Half(s.w) && s.h == 2 * Half(s.h);
        HalvedIsShrunk(half.sums, b.spare, b.sums, original, s.n, Half(s.w), Half(s.h));
      }
      HalvedFollows(half, original, i / 2, Next(s));
    }
  }

  /** From whole blocks, each vector is the better of the old one and the block's sum. */
  lemma UpdatedIsBetter(b: Buffers, factor: int, w: int, h: int, vecWidth: int, vecHeight: int, x: int, y: int)
    requires Divides(factor, w, h) && 0 <= x < vecWidth && x < w / factor && 0 <= y < vecHeight && y < h / factor
    ensures Updated(b, factor, w, h, vecWidth, vecHeight).vectors(x, y) ==
            VectorUpdate(b.vectors(x, y), Shrunk(b.sums, factor, x, y))
  {
    UnshrunkIsShrunk(b.sums, w, h);
    FinishIsExact(factor, 1, w / factor, h / factor);
    HalvedFollows(b, b.sums, factor, Halving(1, w, h, true));
  }

  /** vector_update: halves the costs until there is one texel for each block, and keeps the better
      of the old and the new vector of each. */
  method UpdateVectors(g: Textures, factor: int, w: int, h: int)
    requires g.Valid() && 0 <= w <= g.width && 0 <= h <= g.padHeight
    modifies g`id, g`owner, g`store, g`draws
    ensures g.Valid() && g.Only({Vector, Vector2, Vector3})
    ensures Divides(factor, w, h) ==>
      BuffersOf(g) == Updated(old(BuffersOf(g)), factor, w, h, g.vecWidth, g.vecHeight)
    ensures Divides(factor, w, h) ==>
      forall x, y | 0 <= x < g.vecWidth && x < w / factor && 0 <= y < g.vecHeight && y < h / factor ::
        g.Held(Vector)(x, y) == VectorUpdate(old(g.Held(Vector))(x, y), Shrunk(old(g.Held(Vector2)), factor, x, y))
  {
    g.SizesFit();
    ghost var b := BuffersOf(g);
    HalveCandidates(g, factor, w, h);
    if Divides(factor, w, h) { FinishIsExact(factor, 1, w / factor, h / factor); }
    ApplyUpdate(g);
    if Divides(factor, w, h) {
      forall x, y | 0 <= x < g.vecWidth && x < w / factor && 0 <= y < g.vecHeight && y < h / factor
        ensures g.Held(Vector)(x, y) == VectorUpdate(b.vectors(x, y), Shrunk(b.sums, factor, x, y))
      {
        UpdatedIsBetter(b, factor, w, h, g.vecWidth, g.vecHeight, x, y);
      }
    }
  }

  /** The last draw of vector_update, and the swap. */
  method ApplyUpdate(g: Textures)
    requires g.Valid()
    modifies g`id, g`owner, g`store, g`draws
    ensures g.Valid() && g.Only({Vector, Vector3})
    ensures BuffersOf(g) == Updated(old(BuffersOf(g)), 1, g.width, g.padHeight, g.vecWidth, g.vecHeight)
  {
    g.SizesFit();
    ghost var b := BuffersOf(g);
    var shade := UpdateShade(g.Held(Vector), g.Held(Vector2));
    g.Render(Vector3, {}, {Vector, Vector2}, shade, g.vecWidth, g.vecHeight);
    ghost var updated := g.Held(Vector3);
    assert g.Held(Vector) == b.vectors && g.Held(Vector2) == b.sums;
    g.Swap(Vector, Vector3);
    assert g.Held(Vector) == updated && g.Held(Vector2) == b.sums;
  }

  method HalveCandidates(g: Textures, factor: int, w: int, h: int)
    requires g.Valid() && 0 <= w <= g.width && 0 <= h <= g.padHeight
    modifies g`id, g`owner, g`store, g`draws
    ensures g.Valid() && g.Only({Vector2, Vector3})
    ensures Finish(factor, Halving(1, w, h, true)).exact ==> BuffersOf(g) == Halved(old(BuffersOf(g)), factor, w, h)
  {
    ghost var start := BuffersOf(g);
    ghost var s := Halving(1, w, h, true);
    var i, srcWidth, srcHeight := factor, w, h;
    while i > 1
      invariant g.Valid() && g.Only({Vector2, Vector3})
      invariant s.w == srcWidth && s.h == srcHeight && 0 <= srcWidth <= w && 0 <= srcHeight <= h
      invariant Finish(i, s) == Finish(factor, Halving(1, w, h, true))
      invariant s.exact ==> Halved(BuffersOf(g), i, srcWidth, srcHeight) == Halved(start, factor, w, h)
    {
      HalveOnce(g, srcWidth, srcHeight);
      srcWidth, srcHeight, i, s := Half(srcWidth), Half(srcHeight), i / 2, Next(s);
    }
  }

  method HalveOnce(g: Textures, w: int, h: int)
    requires g.Valid() && 0 <= w <= g.width && 0 <= h <= g.padHeight
    modifies g`id, g`owner, g`store, g`draws
    ensures g.Valid() && g.Only({Vector2, Vector3})
    ensures w % 2 == 0 && h % 2 == 0 ==> BuffersOf(g) == HalvedOnce(old(BuffersOf(g)), w, h)
  {
    ghost var b := BuffersOf(g);
    g.Swap(Vector3, Vector2);
    assert BuffersOf(g) == Buffers(b.vectors, b.spare, b.sums);
    var shade := HalvedShade(g.Held(Vector3));
    g.Decimate(Vector2, Vector3, shade, w, h);
  }

  // ----- mb_search_44 -----

  /** What each offset costs the block at (x, y). */
  function CostsAt(frame: Texture, average: Texture, x: int, y: int): Offset -> real {
    (o: Offset) => Cost(frame, average, x, y, o)
  }

  /** Every block has the vector that leads when `next` is about to be tried. */
  ghost predicate Searching(v: Texture, start: Texture, frame: Texture, average: Texture, rad: int,
                            next: Offset, w: int, h: int)
  {
    forall x, y | 0 <= x < w && 0 <= y < h :: Leads(start(x, y), v(x, y), CostsAt(frame, average, x, y), rad, next)
  }

  lemma RoundLeads(v': Texture, v: Texture, sums: Texture, start: Texture, frame: Texture, average: Texture,
                   rad: int, o: Offset, next: Offset, w: int, h: int)
    requires Searching(v, start, frame, average, rad, o, w, h) && Within(o, rad) && next == (o.0 + 1, o.1)
    requires HoldsWindows(sums, frame, average, o, o, 2 * w, 2 * h)
    requires forall x, y | 0 <= x < w && 0 <= y < h :: v'(x, y) == VectorUpdate(v(x, y), Shrunk(sums, 2, x, y))
    ensures Searching(v', start, frame, average, rad, next, w, h)
  {
    forall x, y | 0 <= x < w && 0 <= y < h
      ensures Leads(start(x, y), v'(x, y), CostsAt(frame, average, x, y), rad, next)
    {
      var cost := CostsAt(frame, average, x, y);
      ShrunkWindowsAreCosts(frame, average, o, sums, x, y);
      CostIsLarge(frame, average, x, y, o);
      assert cost(o) == Cost(frame, average, x, y, o);
      assert Leads(start(x, y), v(x, y), cost, rad, o);
      UpdateLeads(start(x, y), v(x, y), cost, rad, o);
    }
  }

  lemma RowLeads(v: Texture, start: Texture, frame: Texture, average: Texture, rad: int, last: Offset,
                 next: Offset, w: int, h: int)
    requires Searching(v, start, frame, average, rad, last, w, h) && last == (rad + 1, next.1 - 1) && next.0 == -rad
    ensures Searching(v, start, frame, average, rad, next, w, h)
  {
    forall x, y | 0 <= x < w && 0 <= y < h
      ensures Leads(start(x, y), v(x, y), CostsAt(frame, average, x, y), rad, next)
    {
      assert Leads(start(x, y), v(x, y), CostsAt(frame, average, x, y), rad, last);
      NextRow(start(x, y), v(x, y), CostsAt(frame, average, x, y), rad, last.1);
    }
  }

  lemma NoneTriedYet(start: Texture, frame: Texture, average: Texture, rad: int, first: Offset, w: int, h: int)
    requires first == (-rad, -rad)
    ensures Searching(start, start, frame, average, rad, first, w, h)
  {
    forall x, y ensures Leads(start(x, y), start(x, y), CostsAt(frame, average, x, y), rad, first) {
      assert NoneTaken(start(x, y), CostsAt(frame, average, x, y), rad, first);
    }
  }

  /** The quarter-size pictures have an even number of pixels each way. */
  predicate WholeBlocks(g: Textures) {
    g.sub4Width == 2 * g.vecWidth && g.sub4Height == 2 * g.vecHeight
  }

  /** mb_search_44: all offsets up to rad are tried on the quarter-size pictures. */
  method SearchQuarter(g: Textures, rad: int)
    requires g.Valid()
    modifies g`id, g`owner, g`store, g`draws
    ensures g.Valid() && g.Only({Vector, Vector2, Vector3})
    ensures rad < 0 ==> g.Held(Vector) == old(g.Held(Vector))
    ensures rad >= 0 && WholeBlocks(g) ==>
      var start, frame, average := old(g.Held(Vector)), old(g.Held(Sub4Ref)), old(g.Held(Sub4Avg));
      Searching(g.Held(Vector), start, frame, average, rad, PastAll(rad), g.vecWidth, g.vecHeight)
  {
    ghost var start, frame, average := g.Held(Vector), g.Held(Sub4Ref), g.Held(Sub4Avg);
    ghost var w, h := g.vecWidth, g.vecHeight;
    var yy := -rad;
    NoneTriedYet(start, frame, average, rad, (-rad, -rad), w, h);
    while yy <= rad
      invariant g.Valid() && g.Only({Vector, Vector2, Vector3})
      invariant rad < 0 ==> g.Held(Vector) == start
      invariant rad >= 0 ==> -rad <= yy <= rad + 1
      invariant WholeBlocks(g) ==> Searching(g.Held(Vector), start, frame, average, rad, (-rad, yy), w, h)
    {
      var xx := -rad;
      while xx <= rad
        invariant -rad <= xx <= rad + 1 && g.Valid() && g.Only({Vector, Vector2, Vector3})
        invariant WholeBlocks(g) ==> Searching(g.Held(Vector), start, frame, average, rad, (xx, yy), w, h)
      {
        TryOffset(g, rad, (xx, yy), start);
        xx := xx + 1;
      }
      if WholeBlocks(g) {
        RowLeads(g.Held(Vector), start, frame, average, rad, (rad + 1, yy), (-rad, yy + 1), w, h);
      }
      yy := yy + 1;
    }
  }

  /** One offset: its sums, and the vectors brought up to date. */
  method TryOffset(g: Textures, rad: int, o: Offset, ghost start: Texture)
    requires g.Valid() && Within(o, rad)
    requires WholeBlocks(g) ==>
      Searching(g.Held(Vector), start, g.Held(Sub4Ref), g.Held(Sub4Avg), rad, o, g.vecWidth, g.vecHeight)
    modifies g`id, g`owner, g`store, g`draws
    ensures g.Valid() && g.Only({Vector, Vector2, Vector3})
    ensures WholeBlocks(g) ==>
      var frame, average := old(g.Held(Sub4Ref)), old(g.Held(Sub4Avg));
      Searching(g.Held(Vector), start, frame, average, rad, (o.0 + 1, o.1), g.vecWidth, g.vecHeight)
  {
    ghost var frame, average, vectors := g.Held(Sub4Ref), g.Held(Sub4Avg), g.Held(Vector);
    g.SizesFit();
    SumDifferences(g, Sub4Ref, Sub4Avg, g.sub4Width, g.sub4Height, o, o);
    ghost var sums := g.Held(Vector2);
    assert g.Held(Vector) == vectors;
    UpdateVectors(g, 2, g.sub4Width, g.sub4Height);
    if WholeBlocks(g) {
      assert Divides(2, g.sub4Width, g.sub4Height);
      RoundLeads(g.Held(Vector), vectors, sums, start, frame, average, rad, o, (o.0 + 1, o.1), g.vecWidth, g.vecHeight);
    }
  }

  // ----- mark_low_contrast_blocks -----

  /** block_contrast_thresh is 0.125 assigned to an int. */
  const BLOCK_CONTRAST_THRESH: int := 0

  function DiffShade(a: Texture, b: Texture): Texture {
    (x: int, y: int) => DiffFrame(a(x, y), b(x, y))
  }

  function ThreshShade(t: Texture, threshold: real): Texture {
    (x: int, y: int) => ThreshDiff(t(x, y), threshold)
  }

  function MeanShade(t: Texture): Texture {
    (x: int, y: int) => DecimateAdd(t, x, y)
  }

  function LowShade(t: Texture, threshold: real): Texture {
    (x: int, y: int) => VectorLowContrast(t(x, y).x, threshold)
  }

  /** One texel for each n by n block, holding the mean of f there. */
  ghost predicate HoldsMeans(t: Texture, f: Grid, n: nat, w: int, h: int)
    requires n > 0
  {
    forall x, y | 0 <= x < w && 0 <= y < h :: t(x, y).x == Mean(f, n, x, y)
  }

  lemma HitsAreMeans(t: Texture, before: Texture, diff: Texture, diffBefore: Texture, frame: Texture, average: Texture,
                     threshold: real, w: int, h: int)
    requires diff == Painted(diffBefore, DiffShade(frame, average), w, h)
    requires t == Painted(before, ThreshShade(diff, threshold), w, h)
    ensures HoldsMeans(t, Hits(frame, average, threshold), 1, w, h)
  {
    var f := Hits(frame, average, threshold);
    forall x, y | 0 <= x < w && 0 <= y < h ensures t(x, y).x == Mean(f, 1, x, y) {
      MeanOfOne(f, x, y);
      assert f(x, y) == ThreshDiff(DiffFrame(frame(x, y), average(x, y)), threshold).x;
      assert t(x, y) == ThreshDiff(diff(x, y), threshold);
    }
  }

  lemma HalvedHoldsMeans(t: Texture, before: Texture, source: Texture, f: Grid, n: nat, w: int, h: int)
    requires n > 0 && HoldsMeans(source, f, n, 2 * w, 2 * h) && t == Painted(before, MeanShade(source), w, h)
    ensures HoldsMeans(t, f, 2 * n, w, h)
  {
    forall x, y | 0 <= x < w && 0 <= y < h ensures t(x, y).x == Mean(f, 2 * n, x, y) {
      DecimateAddIsMean(f, source, n, x, y);
      assert t(x, y) == DecimateAdd(source, x, y);
    }
  }

  /** The sizes are whole blocks all the way down. */
  predicate EightFold(g: Textures) {
    g.width % 8 == 0 && g.height % 8 == 0
  }

  lemma EightFoldSizes(g: Textures)
    requires EightFold(g)
    ensures g.width == 2 * g.sub2Width && g.padHeight == 2 * g.sub2Height
    ensures g.sub2Width == 2 * g.sub4Width && g.sub2Height == 2 * g.sub4Height
    ensures WholeBlocks(g) && g.width == 8 * g.vecWidth && g.padHeight == 8 * g.vecHeight
  {
  }

  /** decimate_add. */
  method HalveMeans(g: Textures, target: Role, source: Role, w: int, h: int, ghost f: Grid, ghost n: nat,
                    ghost n': nat, ghost w': int, ghost h': int)
    requires g.Valid() && target != source && g.DimsOf(target) == (g.width, g.padHeight)
    requires 0 <= w <= g.width && 0 <= h <= g.padHeight && n > 0 && n' == 2 * n
    requires EightFold(g) ==> w == 2 * w' && h == 2 * h' && HoldsMeans(g.Held(source), f, n, w, h)
    modifies g`store, g`draws
    ensures g.Valid() && g.Only({target})
    ensures EightFold(g) ==> HoldsMeans(g.Held(target), f, n', w', h')
  {
    ghost var before, picture := g.Held(target), g.Held(source);
    var shade := MeanShade(g.Held(source));
    g.Decimate(target, source, shade, w, h);
    if EightFold(g) {
      assert g.Held(target) == Painted(before, MeanShade(picture), w', h');
      HalvedHoldsMeans(g.Held(target), before, picture, f, n, w', h');
    }
  }

  /** diff_frame and thresh_diff: how many parts of each pixel differ visibly. */
  method CountHits(g: Textures, contrastThresh: real)
    requires g.Valid()
    modifies g`store, g`draws
    ensures g.Valid() && g.Only({Diff, Tmp})
    ensures HoldsMeans(g.Held(Tmp), Hits(old(g.Held(Ref)), old(g.Held(Avg)), contrastThresh), 1, g.width, g.padHeight)
  {
    ghost var diffBefore, before := g.Held(Diff), g.Held(Tmp);
    var diff := DiffShade(g.Held(Ref), g.Held(Avg));
    g.Render(Diff, {Ref, Avg}, {}, diff, g.width, g.padHeight);
    var thresh := ThreshShade(g.Held(Diff), contrastThresh);
    g.Render(Tmp, {Diff}, {}, thresh, g.width, g.padHeight);
    ghost var frame, average, w, h := old(g.Held(Ref)), old(g.Held(Avg)), g.width, g.padHeight;
    HitsAreMeans(g.Held(Tmp), before, g.Held(Diff), diffBefore, frame, average, contrastThresh, w, h);
  }

  /** The three calls of decimate_add. */
  method AverageHits(g: Textures, ghost f: Grid)
    requires g.Valid() && HoldsMeans(g.Held(Tmp), f, 1, g.width, g.padHeight)
    modifies g`store, g`draws
    ensures g.Valid() && g.Only({Diff, Tmp})
    ensures EightFold(g) ==> HoldsMeans(g.Held(Diff), f, 8, g.vecWidth, g.vecHeight)
  {
    g.SizesFit();
    if EightFold(g) { EightFoldSizes(g); }
    HalveMeans(g, Diff, Tmp, g.width, g.padHeight, f, 1, 2, g.sub2Width, g.sub2Height);
    HalveMeans(g, Tmp, Diff, g.sub2Width, g.sub2Height, f, 2, 4, g.sub4Width, g.sub4Height);
    HalveMeans(g, Diff, Tmp, g.sub4Width, g.sub4Height, f, 4, 8, g.vecWidth, g.vecHeight);
  }

  method MarkLowContrastBlocks(g: Textures, contrastThresh: real)
    requires g.Valid()
    modifies g`store, g`draws
    ensures g.Valid() && g.Only({Diff, Tmp, Vector})
    ensures EightFold(g) ==> forall x, y | 0 <= x < g.vecWidth && 0 <= y < g.vecHeight ::
      var mean := Mean(Hits(old(g.Held(Ref)), old(g.Held(Avg)), contrastThresh), 8, x, y);
      g.Held(Vector)(x, y) == VectorLowContrast(mean, BLOCK_CONTRAST_THRESH as real)
  {
    g.SizesFit();
    ghost var f := Hits(g.Held(Ref), g.Held(Avg), contrastThresh);
    CountHits(g, contrastThresh);
    AverageHits(g, f);
    var low := LowShade(g.Held(Diff), BLOCK_CONTRAST_THRESH as real);
    g.Render(Vector, {Diff}, {}, low, g.vecWidth, g.vecHeight);
  }

  // ----- The search as a whole -----

  /** Blocks where nothing differs visibly keep the vector (0, 0); every other block gets the
      cheapest of all offsets. */
  ghost predicate AllFound(v: Texture, frame: Texture, average: Texture, threshold: real, quarterFrame: Texture,
                           quarterAverage: Texture, rad: int, w: int, h: int)
  {
    forall x, y | 0 <= x < w && 0 <= y < h ::
      Found(LowContrast(frame, average, threshold, x, y), v(x, y), CostsAt(quarterFrame, quarterAverage, x, y), rad)
  }

  lemma SearchedIsFound(v: Texture, start: Texture, frame: Texture, average: Texture, threshold: real,
                        quarterFrame: Texture, quarterAverage: Texture, rad: int, w: int, h: int)
    requires rad >= 0 && Searching(v, start, quarterFrame, quarterAverage, rad, PastAll(rad), w, h)
    requires forall x, y | 0 <= x < w && 0 <= y < h ::
      start(x, y) == VectorLowContrast(Mean(Hits(frame, average, threshold), 8, x, y), 0.0)
    ensures AllFound(v, frame, average, threshold, quarterFrame, quarterAverage, rad, w, h)
  {
    forall x, y | 0 <= x < w && 0 <= y < h
      ensures var marked := LowContrast(frame, average, threshold, x, y);
        Found(marked, v(x, y), CostsAt(quarterFrame, quarterAverage, x, y), rad)
    {
      var cost := CostsAt(quarterFrame, quarterAverage, x, y);
      MarkedIffLowContrast(frame, average, threshold, x, y);
      forall o ensures cost(o) >= 256.0 * Penalty(o) {
        CostIsLarge(quarterFrame, quarterAverage, x, y, o);
      }
      assert Leads(start(x, y), v(x, y), cost, rad, PastAll(rad));
      SearchFinds(LowContrast(frame, average, threshold, x, y), start(x, y), v(x, y), cost, rad);
    }
  }

  /** A quarter of the radius, cut off towards zero. */
  function Quarter(radius: int): int {
    if radius >= 0 then radius / 4 else -(-radius / 4)
  }

  lemma QuarterCutsOff(radius: int)
    ensures Quarter(-radius) == -Quarter(radius)
    ensures radius >= 0 ==> 4 * Quarter(radius) <= radius < 4 * Quarter(radius) + 4
  {
  }

  /** radius / 4, as C divides. */
  method CutOff(radius: int) returns (rad: int)
    ensures rad == Quarter(radius) && (radius > -4 ==> rad >= 0)
  {
    rad := if radius < 0 then -(-radius / 4) else radius / 4;
  }

  /** The first two stages of the search in denoiseFrame. */
  method MarkAndSearch(g: Textures, contrastThresh: real, radius: int)
    requires g.Valid()
    modifies g`id, g`owner, g`store, g`draws
    ensures g.Valid() && g.Only({Diff, Tmp, Vector, Vector2, Vector3})
    ensures EightFold(g) && radius > -4 ==>
      var frame, average, w, h := old(g.Held(Ref)), old(g.Held(Avg)), g.vecWidth, g.vecHeight;
      var quarterFrame, quarterAverage := old(g.Held(Sub4Ref)), old(g.Held(Sub4Avg));
      AllFound(g.Held(Vector), frame, average, contrastThresh, quarterFrame, quarterAverage, Quarter(radius), w, h)
  {
    ghost var frame, average := g.Held(Ref), g.Held(Avg);
    ghost var quarterFrame, quarterAverage := g.Held(Sub4Ref), g.Held(Sub4Avg);
    MarkLowContrastBlocks(g, contrastThresh);
    ghost var start := g.Held(Vector);
    assert g.Held(Sub4Ref) == quarterFrame && g.Held(Sub4Avg) == quarterAverage;
    var rad := CutOff(radius);
    SearchQuarter(g, rad);
    if EightFold(g) && radius > -4 {
      EightFoldSizes(g);
      SearchedIsFound(g.Held(Vector), start, frame, average, contrastThresh, quarterFrame, quarterAverage, rad,
                      g.vecWidth, g.vecHeight);
    }
  }
}
