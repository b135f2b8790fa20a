/** The finer motion searches of src/cg_interface.c, and the count of bad vectors. */
module FineSearch {
  import opened CoarseSearch
  import opened Gpu
  import opened MotionSearch
  import opened Shaders
  import opened Sums

  // ----- The finer searches -----

  /** No block that had a vector has lost it, or has one that costs more. */
  ghost predicate NoWorse(v': Texture, v: Texture, w: int, h: int) {
    forall x, y | 0 <= x < w && 0 <= y < h :: NoWorseAt(v'(x, y), v(x, y))
  }

  predicate NoWorseAt(v': Texel, v: Texel) {
    v.w != 0.0 ==> v'.w != 0.0 && Abs(v'.z) <= Abs(v.z)
  }

  lemma NoWorseYet(v'': Texture, v': Texture, v: Texture, w: int, h: int)
    requires NoWorse(v'', v', w, h) && NoWorse(v', v, w, h)
    ensures NoWorse(v'', v, w, h)
  {
    forall x, y | 0 <= x < w && 0 <= y < h ensures NoWorseAt(v''(x, y), v(x, y)) {
      assert NoWorseAt(v''(x, y), v'(x, y)) && NoWorseAt(v'(x, y), v(x, y));
    }
  }

  datatype Kind = WholePixel | HalfPixel

  /** One round of a finer search: what it compares, and the offset it tries from twice the vectors. */
  datatype Try = Try(kind: Kind, frame: Texture, average: Texture, vectors: Texture, factor: int, offset: Offset)

  /** The vector that is read for a pixel, where each stands for `factor` pixels. */
  function VectorAt(vectors: Texture, factor: int, x: int, y: int): Texel
    requires factor > 0
  {
    vectors((2 * x + factor) / (2 * factor), (2 * y + factor) / (2 * factor))
  }

  /** The vector of a block is read for the pixels around the first one of the block, of which only a
      quarter are in it. */
  lemma VectorIsReadAround(vectors: Texture, factor: int, column: int, row: int, x: int, y: int)
    requires factor > 0
    requires -factor <= 2 * (x - factor * column) < factor && -factor <= 2 * (y - factor * row) < factor
    ensures VectorAt(vectors, factor, x, y) == vectors(column, row)
  {
    ReadAround(factor, column, x);
    ReadAround(factor, row, y);
  }

  lemma ReadAround(factor: int, b: int, x: int)
    requires factor > 0 && -factor <= 2 * (x - factor * b) < factor
    ensures (2 * x + factor) / (2 * factor) == b
  {
    var r := 2 * (x - factor * b) + factor;
    assert 2 * x + factor == b * (2 * factor) + r by { Doubled(b, factor); Doubled(factor, b); }
    Remainder(b, 2 * factor, r);
  }

  /** How much pixel (i, j) differs when the vector is v. */
  function Misses(t: Try, v: Texel): Grid {
    var nx, ny := v.x * 2.0, v.y * 2.0;
    var mx, my := nx + t.offset.0 as real, ny + t.offset.1 as real;
    match t.kind
    case WholePixel =>
      (i: int, j: int) => Difference(t.frame(i + TexelAt(mx), j + TexelAt(my)), t.average(i, j))
    case HalfPixel =>
      (i: int, j: int) =>
        var from, to := t.average(i + TexelAt(nx), j + TexelAt(ny)), t.average(i + TexelAt(mx), j + TexelAt(my));
        Difference(MeanOf(from, to), t.frame(i, j))
  }

  function TryShade(t: Try, accum: Texture, step: Offset): Texture
    requires t.factor > 0
  {
    (x: int, y: int) =>
      var v := VectorAt(t.vectors, t.factor, x, y);
      if t.kind == WholePixel then SadPass2(t.frame, t.average, v, accum(x, y), x, y, t.offset, step)
      else SadHalfpel(t.frame, t.average, v, accum(x, y), x, y, t.offset, step)
  }

  /** What the accumulator holds after dy rows of 8 steps and dx steps more, on top of what it started
      with. */
  predicate TriedAt(t: Try, sum: Texture, start: Texture, x: int, y: int, dx: nat, dy: nat)
    requires t.factor > 0
  {
    var v := VectorAt(t.vectors, t.factor, x, y);
    && sum(x, y).z == start(x, y).z + BlockSum(Misses(t, v), x, y, 8, dy) + RowSum(Misses(t, v), x, y + dy, dx)
    && (dx + dy > 0 ==> LeadsOn(sum(x, y), v, t.offset))
  }

  /** A candidate: twice the vector, and an offset. */
  predicate LeadsOn(candidate: Texel, v: Texel, offset: Offset) {
    && candidate.x == v.x + v.x + offset.0 as real && candidate.y == v.y + v.y + offset.1 as real
    && candidate.w == 1.0
  }

  ghost predicate AllTried(t: Try, sum: Texture, start: Texture, w: int, h: int, dx: nat, dy: nat)
    requires t.factor > 0
  {
    forall x, y | 0 <= x < w && 0 <= y < h :: TriedAt(t, sum, start, x, y, dx, dy)
  }

  lemma TryAdds(t: Try, sum: Texture, before: Texture, accum: Texture, start: Texture, w: int, h: int,
                dx: nat, dy: nat, dx': nat)
    requires t.factor > 0 && AllTried(t, accum, start, w, h, dx, dy) && dx' == dx + 1
    requires sum == Painted(before, TryShade(t, accum, (dx, dy)), w, h)
    ensures AllTried(t, sum, start, w, h, dx', dy)
  {
    forall x, y | 0 <= x < w && 0 <= y < h ensures TriedAt(t, sum, start, x, y, dx', dy) {
      assert TriedAt(t, accum, start, x, y, dx, dy);
      assert sum(x, y) == TryShade(t, accum, (dx, dy))(x, y);
      PixelAdds(t, sum(x, y), accum, x, y, dx, dy);
      RowGoesOn(Misses(t, VectorAt(t.vectors, t.factor, x, y)), x, y + dy, dx);
    }
  }

  lemma RowGoesOn(f: Grid, x: int, y: int, n: nat)
    ensures RowSum(f, x, y, n + 1) == RowSum(f, x, y, n) + f(x + n, y)
  {
  }

  lemma PixelAdds(t: Try, sum: Texel, accum: Texture, x: int, y: int, dx: nat, dy: nat)
    requires t.factor > 0 && sum == TryShade(t, accum, (dx, dy))(x, y)
    ensures var v := VectorAt(t.vectors, t.factor, x, y);
      sum.z == accum(x, y).z + Misses(t, v)(x + dx, y + dy) && LeadsOn(sum, v, t.offset)
  {
    var v := VectorAt(t.vectors, t.factor, x, y);
    if t.kind == WholePixel {
      assert sum == SadPass2(t.frame, t.average, v, accum(x, y), x, y, t.offset, (dx, dy));
    } else {
      assert sum == SadHalfpel(t.frame, t.average, v, accum(x, y), x, y, t.offset, (dx, dy));
    }
  }

  lemma TryRow(t: Try, sum: Texture, start: Texture, w: int, h: int, dy: nat, dy': nat)
    requires t.factor > 0 && AllTried(t, sum, start, w, h, 8, dy) && dy' == dy + 1
    ensures AllTried(t, sum, start, w, h, 0, dy')
  {
    forall x, y | 0 <= x < w && 0 <= y < h ensures TriedAt(t, sum, start, x, y, 0, dy') {
      assert TriedAt(t, sum, start, x, y, 8, dy);
      var m := Misses(t, VectorAt(t.vectors, t.factor, x, y));
      assert BlockSum(m, x, y, 8, dy') == BlockSum(m, x, y, 8, dy) + RowSum(m, x, y + dy, 8);
    }
  }

  lemma NoneTried(t: Try, start: Texture, w: int, h: int)
    requires t.factor > 0
    ensures AllTried(t, start, start, w, h, 0, 0)
  {
    forall x, y ensures TriedAt(t, start, start, x, y, 0, 0) {
      assert RowSum(Misses(t, VectorAt(t.vectors, t.factor, x, y)), x, y + 0, 0) == 0.0;
    }
  }

  /** One step on the accumulators: they trade names, and one is drawn from the other. */
  function Stepped(t: Try, b: Buffers, step: Offset, w: int, h: int): Buffers
    requires t.factor > 0
  {
    Buffers(b.vectors, Painted(b.spare, TryShade(t, b.sums, step), w, h), b.sums)
  }

  function SteppedRow(t: Try, b: Buffers, dy: nat, dx: nat, w: int, h: int): Buffers
    requires t.factor > 0
  {
    if dx == 0 then b else Stepped(t, SteppedRow(t, b, dy, dx - 1, w, h), (dx - 1, dy), w, h)
  }

  function SteppedRows(t: Try, b: Buffers, dy: nat, w: int, h: int): Buffers
    requires t.factor > 0
  {
    if dy == 0 then b else SteppedRow(t, SteppedRows(t, b, dy - 1, w, h), dy - 1, 8, w, h)
  }

  /** SAD_pass2 and SAD_halfpel as a whole. */
  function Summed(t: Try, b: Buffers, w: int, h: int): Buffers
    requires t.factor > 0
  {
    var cleared := Painted(b.spare, (x: int, y: int) => UNSET, w, h);
    SteppedRows(t, Buffers(b.vectors, b.sums, cleared), 8, w, h)
  }

  lemma StepIsTried(t: Try, r: Buffers, b: Buffers, start: Texture, dx: nat, dy: nat, w: int, h: int, dx': nat)
    requires t.factor > 0 && AllTried(t, b.sums, start, w, h, dx, dy) && dx' == dx + 1
    requires r == Stepped(t, b, (dx, dy), w, h)
    ensures AllTried(t, r.sums, start, w, h, dx', dy) && r.vectors == b.vectors
  {
    TryAdds(t, r.sums, b.spare, b.sums, start, w, h, dx, dy, dx');
  }

  lemma {:induction false} RowIsTried(t: Try, b: Buffers, start: Texture, dy: nat, dx: nat, w: int, h: int)
    requires t.factor > 0 && AllTried(t, b.sums, start, w, h, 0, dy) && dx <= 8
    ensures var r := SteppedRow(t, b, dy, dx, w, h);
      AllTried(t, r.sums, start, w, h, dx, dy) && r.vectors == b.vectors
  {
    if dx > 0 {
      var i := dx - 1;
      RowIsTried(t, b, start, dy, i, w, h);
      StepIsTried(t, SteppedRow(t, b, dy, dx, w, h), SteppedRow(t, b, dy, i, w, h), start, i, dy, w, h, dx);
    }
  }

  lemma {:induction false} RowsAreTried(t: Try, b: Buffers, dy: nat, w: int, h: int)
    requires t.factor > 0
    ensures var r := SteppedRows(t, b, dy, w, h);
      AllTried(t, r.sums, b.sums, w, h, 0, dy) && r.vectors == b.vectors
  {
    if dy == 0 {
      NoneTried(t, b.sums, w, h);
    } else {
      RowsAreTried(t, b, dy - 1, w, h);
      var r := SteppedRows(t, b, dy - 1, w, h);
      RowIsTried(t, r, b.sums, dy - 1, 8, w, h);
      TryRow(t, SteppedRow(t, r, dy - 1, 8, w, h).sums, b.sums, w, h, dy - 1, dy);
    }
  }

  /** The sums come on top of what vector2TexID was left with, because the other accumulator is the
      one that is cleared. */
  lemma SummedIsTried(t: Try, b: Buffers, w: int, h: int)
    requires t.factor > 0
    ensures AllTried(t, Summed(t, b, w, h).sums, b.sums, w, h, 0, 8) && Summed(t, b, w, h).vectors == b.vectors
  {
    var cleared := Painted(b.spare, (x: int, y: int) => UNSET, w, h);
    RowsAreTried(t, Buffers(b.vectors, b.sums, cleared), 8, w, h);
  }

  /** What a round compares is what the textures hold. */
  ghost predicate Holds(g: Textures, ref: Role, avg: Role, t: Try)
    requires g.Valid()
    reads g
  {
    t.frame == g.Held(ref) && t.average == g.Held(avg) && t.vectors == g.Held(Vector)
  }

  /** SAD_pass2 and SAD_halfpel: as SAD, with the vectors found so far as a further source. */
  method RefineSums(g: Textures, ref: Role, avg: Role, w: int, h: int, t: Try)
    requires g.Valid() && ref !in {Vector2, Vector3} && avg !in {Vector2, Vector3} && t.factor > 0
    requires 0 <= w <= g.width && 0 <= h <= g.padHeight && Holds(g, ref, avg, t)
    modifies g`id, g`owner, g`store, g`draws
    ensures g.Valid() && g.Only({Vector2, Vector3})
    ensures BuffersOf(g) == Summed(t, old(BuffersOf(g)), w, h)
    ensures AllTried(t, g.Held(Vector2), old(g.Held(Vector2)), w, h, 0, 8)
  {
    ghost var start := BuffersOf(g);
    var zero := (x: int, y: int) => UNSET;
    g.Render(Vector3, {}, {}, zero, w, h);
    RefineRows(g, ref, avg, w, h, t);
    SummedIsTried(t, start, w, h);
  }

  method RefineRows(g: Textures, ref: Role, avg: Role, w: int, h: int, t: Try)
    requires g.Valid() && ref !in {Vector2, Vector3} && avg !in {Vector2, Vector3} && t.factor > 0
    requires 0 <= w <= g.width && 0 <= h <= g.padHeight && Holds(g, ref, avg, t)
    modifies g`id, g`owner, g`store, g`draws
    ensures g.Valid() && g.Only({Vector2, Vector3})
    ensures BuffersOf(g) == SteppedRows(t, old(BuffersOf(g)), 8, w, h)
  {
    ghost var start := BuffersOf(g);
    var dy := 0;
    while dy < 8
      invariant 0 <= dy <= 8 && g.Valid() && g.Only({Vector2, Vector3})
      invariant BuffersOf(g) == SteppedRows(t, start, dy, w, h)
    {
      RefineRow(g, ref, avg, w, h, dy, t);
      dy := dy + 1;
    }
  }

  method RefineRow(g: Textures, ref: Role, avg: Role, w: int, h: int, dy: nat, t: Try)
    requires g.Valid() && ref !in {Vector2, Vector3} && avg !in {Vector2, Vector3} && t.factor > 0
    requires 0 <= w <= g.width && 0 <= h <= g.padHeight && Holds(g, ref, avg, t)
    modifies g`id, g`owner, g`store, g`draws
    ensures g.Valid() && g.Only({Vector2, Vector3})
    ensures BuffersOf(g) == SteppedRow(t, old(BuffersOf(g)), dy, 8, w, h)
  {
    ghost var start := BuffersOf(g);
    var dx := 0;
    while dx < 8
      invariant 0 <= dx <= 8 && g.Valid() && g.Only({Vector2, Vector3})
      invariant BuffersOf(g) == SteppedRow(t, start, dy, dx, w, h)
    {
      RefineStep(g, ref, avg, w, h, (dx, dy), t);
      dx := dx + 1;
    }
  }

  /** One step: swap, and SAD_pass2_iterate or SAD_halfpel_iterate. */
  method RefineStep(g: Textures, ref: Role, avg: Role, w: int, h: int, step: Offset, t: Try)
    requires g.Valid() && ref !in {Vector2, Vector3} && avg !in {Vector2, Vector3} && t.factor > 0
    requires 0 <= w <= g.width && 0 <= h <= g.padHeight && Holds(g, ref, avg, t)
    modifies g`id, g`owner, g`store, g`draws
    ensures g.Valid() && g.Only({Vector2, Vector3})
    ensures BuffersOf(g) == Stepped(t, old(BuffersOf(g)), step, w, h)
  {
    ghost var b := BuffersOf(g);
    g.Swap(Vector3, Vector2);
    assert BuffersOf(g) == Buffers(b.vectors, b.spare, b.sums) && Holds(g, ref, avg, t);
    var read := Try(t.kind, g.Held(ref), g.Held(avg), g.Held(Vector), t.factor, t.offset);
    var shade := TryShade(read, g.Held(Vector3), step);
    g.Render(Vector2, {ref, avg, Vector}, {Vector3}, shade, w, h);
  }

  /** What the block at (x, y) would cost: the sums over its pixels, each with the vector that is read
      for it, on top of what was left. */
  function TryCosts(t: Try, start: Texture): Grid
    requires t.factor > 0
  {
    (x: int, y: int) => start(x, y).z + BlockSum(Misses(t, VectorAt(t.vectors, t.factor, x, y)), x, y, 8, 8)
  }

  /** A block keeps its vector v, or goes on to twice v and the offset if that costs no more. */
  predicate RefinedAt(v': Texel, v: Texel, t: Try, start: Texture, x: int, y: int)
    requires t.factor > 0
  {
    var cost := BlockSum(TryCosts(t, start), t.factor * x, t.factor * y, t.factor, t.factor);
    if v.w == 0.0 || Abs(cost) <= v.z then LeadsOn(v', v, t.offset) && v'.z == cost else v' == v
  }

  ghost predicate Refined(v': Texture, t: Try, start: Texture, w: int, h: int)
    requires t.factor > 0
  {
    forall x, y | 0 <= x < w && 0 <= y < h :: RefinedAt(v'(x, y), t.vectors(x, y), t, start, x, y)
  }

  lemma BlockIsTried(t: Try, sums: Texture, start: Texture, w: int, h: int, x: int, y: int)
    requires t.factor > 0 && AllTried(t, sums, start, w, h, 0, 8)
    requires 0 <= x < w / t.factor && 0 <= y < h / t.factor
    requires t.factor * (w / t.factor) == w && t.factor * (h / t.factor) == h
    ensures LeadsOn(Shrunk(sums, t.factor, x, y), t.vectors(x, y), t.offset)
    ensures Shrunk(sums, t.factor, x, y).z ==
            BlockSum(TryCosts(t, start), t.factor * x, t.factor * y, t.factor, t.factor)
  {
    var f := t.factor;
    BlockInside(f, w / f, w, x);
    BlockInside(f, h / f, h, y);
    forall i, j | f * x <= i < f * x + f && f * y <= j < f * y + f
      ensures Costs(sums)(i, j) == TryCosts(t, start)(i, j)
    {
      assert TriedAt(t, sums, start, i, j, 0, 8);
    }
    BlockSame(Costs(sums), TryCosts(t, start), f * x, f * y, f, f);
    assert TriedAt(t, sums, start, f * x, f * y, 0, 8);
    VectorIsReadAround(t.vectors, f, x, y, f * x, f * y);
  }

  lemma BlockInside(factor: int, q: int, w: int, x: int)
    requires factor >= 1 && w == factor * q && 0 <= x < q
    ensures 0 <= factor * x && factor * x + factor <= w
  {
    Scale(0, x, factor);
    Scale(x + 1, q, factor);
    assert (x + 1) * factor == factor * x + factor && q * factor == w;
  }

  lemma RefinedIsNoWorse(v': Texture, t: Try, start: Texture, w: int, h: int)
    requires t.factor > 0 && Refined(v', t, start, w, h)
    ensures NoWorse(v', t.vectors, w, h)
  {
    forall x, y | 0 <= x < w && 0 <= y < h ensures NoWorseAt(v'(x, y), t.vectors(x, y)) {
      assert RefinedAt(v'(x, y), t.vectors(x, y), t, start, x, y);
    }
  }

  /** One of the finer searches: what it compares, and the offsets it tries. */
  datatype Scan = Scan(kind: Kind, frame: Texture, average: Texture, factor: int, rad: int, w: int, h: int)

  function TryOf(c: Scan, b: Buffers, offset: Offset): Try {
    Try(c.kind, c.frame, c.average, b.vectors, c.factor, offset)
  }

  /** One round: sums on top of what was left, and the better of the two vectors. */
  function Round(c: Scan, b: Buffers, offset: Offset, g: Textures): Buffers
    requires c.factor > 0
  {
    Updated(Summed(TryOf(c, b, offset), b, c.w, c.h), c.factor, c.w, c.h, g.vecWidth, g.vecHeight)
  }

  /** The first n rounds of the row yy. */
  function RoundsOfRow(c: Scan, b: Buffers, yy: int, n: nat, g: Textures): Buffers
    requires c.factor > 0
  {
    if n == 0 then b
    else Round(c, RoundsOfRow(c, b, yy, n - 1, g), (n - 1 - c.rad, yy), g)
  }

  /** The first m rows of rounds. */
  function Rounds(c: Scan, b: Buffers, m: nat, g: Textures): Buffers
    requires c.factor > 0 && c.rad >= 0
  {
    if m == 0 then b
    else RoundsOfRow(c, Rounds(c, b, m - 1, g), m - 1 - c.rad, 2 * c.rad + 1, g)
  }

  /** A whole search. */
  function Scanned(c: Scan, b: Buffers, g: Textures): Buffers
    requires c.factor > 0 && c.rad >= 0
  {
    Rounds(c, b, 2 * c.rad + 1, g)
  }

  /** Whole blocks, one for each vector. */
  predicate Matches(c: Scan, g: Textures) {
    c.factor > 0 && Divides(c.factor, c.w, c.h) && c.w / c.factor == g.vecWidth && c.h / c.factor == g.vecHeight
  }

  /** What a round does to each block. */
  lemma RoundRefines(c: Scan, b: Buffers, offset: Offset, g: Textures)
    requires Matches(c, g)
    ensures Refined(Round(c, b, offset, g).vectors, TryOf(c, b, offset), b.sums, g.vecWidth, g.vecHeight)
  {
    var t := TryOf(c, b, offset);
    var s := Summed(t, b, c.w, c.h);
    SummedIsTried(t, b, c.w, c.h);
    forall x, y | 0 <= x < g.vecWidth && 0 <= y < g.vecHeight
      ensures RefinedAt(Round(c, b, offset, g).vectors(x, y), b.vectors(x, y), t, b.sums, x, y)
    {
      BlockIsTried(t, s.sums, b.sums, c.w, c.h, x, y);
      UpdatedIsBetter(s, c.factor, c.w, c.h, g.vecWidth, g.vecHeight, x, y);
    }
  }

  lemma {:induction false} RowIsNoWorse(c: Scan, b: Buffers, yy: int, n: nat, g: Textures)
    requires Matches(c, g)
    ensures NoWorse(RoundsOfRow(c, b, yy, n, g).vectors, b.vectors, g.vecWidth, g.vecHeight)
  {
    if n > 0 {
      RowIsNoWorse(c, b, yy, n - 1, g);
      var r := RoundsOfRow(c, b, yy, n - 1, g);
      var offset := (n - 1 - c.rad, yy);
      var next := Round(c, r, offset, g);
      RoundRefines(c, r, offset, g);
      RefinedIsNoWorse(next.vectors, TryOf(c, r, offset), r.sums, g.vecWidth, g.vecHeight);
      NoWorseYet(next.vectors, r.vectors, b.vectors, g.vecWidth, g.vecHeight);
    }
  }

  /** Over all rounds no block loses its vector, or gets one that costs more. */
  lemma {:induction false} RoundsAreNoWorse(c: Scan, b: Buffers, m: nat, g: Textures)
    requires Matches(c, g) && c.rad >= 0
    ensures NoWorse(Rounds(c, b, m, g).vectors, b.vectors, g.vecWidth, g.vecHeight)
  {
    if m > 0 {
      RoundsAreNoWorse(c, b, m - 1, g);
      var r := Rounds(c, b, m - 1, g);
      RowIsNoWorse(c, r, m - 1 - c.rad, 2 * c.rad + 1, g);
      NoWorseYet(Rounds(c, b, m, g).vectors, r.vectors, b.vectors, g.vecWidth, g.vecHeight);
    }
  }

  ghost predicate Reads(g: Textures, ref: Role, avg: Role, c: Scan)
    requires g.Valid()
    reads g
  {
    c.frame == g.Held(ref) && c.average == g.Held(avg)
  }

  /** One round of a finer search. */
  method RefineOnce(g: Textures, ref: Role, avg: Role, c: Scan, offset: Offset)
    requires g.Valid() && ref !in {Vector, Vector2, Vector3} && avg !in {Vector, Vector2, Vector3} && c.factor > 0
    requires 0 <= c.w <= g.width && 0 <= c.h <= g.padHeight && Reads(g, ref, avg, c)
    modifies g`id, g`owner, g`store, g`draws
    ensures g.Valid() && g.Only({Vector, Vector2, Vector3})
    ensures Divides(c.factor, c.w, c.h) ==>
      BuffersOf(g) == Round(c, old(BuffersOf(g)), offset, g)
  {
    ghost var b := BuffersOf(g);
    var t := Try(c.kind, g.Held(ref), g.Held(avg), g.Held(Vector), c.factor, offset);
    RefineSums(g, ref, avg, c.w, c.h, t);
    UpdateVectors(g, c.factor, c.w, c.h);
  }

  /** The loops of mb_search_22, mb_search_11 and mb_search_00. */
  method Refine(g: Textures, ref: Role, avg: Role, c: Scan)
    requires g.Valid() && ref !in {Vector, Vector2, Vector3} && avg !in {Vector, Vector2, Vector3}
    requires c.factor > 0 && c.rad >= 0
    requires 0 <= c.w <= g.width && 0 <= c.h <= g.padHeight && Reads(g, ref, avg, c)
    modifies g`id, g`owner, g`store, g`draws
    ensures g.Valid() && g.Only({Vector, Vector2, Vector3})
    ensures Divides(c.factor, c.w, c.h) ==> BuffersOf(g) == Scanned(c, old(BuffersOf(g)), g)
  {
    ghost var start := BuffersOf(g);
    var rad := c.rad;
    for yy := -rad to rad + 1
      invariant g.Valid() && g.Only({Vector, Vector2, Vector3})
      invariant Divides(c.factor, c.w, c.h) ==>
        BuffersOf(g) == Rounds(c, start, yy + rad, g)
    {
      RefineRowOfRounds(g, ref, avg, c, yy);
    }
  }

  method RefineRowOfRounds(g: Textures, ref: Role, avg: Role, c: Scan, yy: int)
    requires g.Valid() && ref !in {Vector, Vector2, Vector3} && avg !in {Vector, Vector2, Vector3}
    requires c.factor > 0 && c.rad >= 0
    requires 0 <= c.w <= g.width && 0 <= c.h <= g.padHeight && Reads(g, ref, avg, c)
    modifies g`id, g`owner, g`store, g`draws
    ensures g.Valid() && g.Only({Vector, Vector2, Vector3})
    ensures Divides(c.factor, c.w, c.h) ==>
      BuffersOf(g) == RoundsOfRow(c, old(BuffersOf(g)), yy, 2 * c.rad + 1, g)
  {
    ghost var start := BuffersOf(g);
    var rad := c.rad;
    for xx := -rad to rad + 1
      invariant g.Valid() && g.Only({Vector, Vector2, Vector3})
      invariant Divides(c.factor, c.w, c.h) ==>
        BuffersOf(g) == RoundsOfRow(c, start, yy, xx + rad, g)
    {
      RefineOnce(g, ref, avg, c, (xx, yy));
    }
  }

  function HalfScan(frame: Texture, average: Texture, g: Textures): Scan {
    Scan(WholePixel, frame, average, 4, 2, g.sub2Width, g.sub2Height)
  }

  function FullScan(frame: Texture, average: Texture, g: Textures): Scan {
    Scan(WholePixel, frame, average, 8, 2, g.width, g.padHeight)
  }

  function HalfpelScan(frame: Texture, average: Texture, g: Textures): Scan {
    Scan(HalfPixel, frame, average, 8, 1, g.width, g.padHeight)
  }

  lemma EightFoldMatches(frame: Texture, average: Texture, g: Textures)
    requires EightFold(g)
    ensures Matches(HalfScan(frame, average, g), g)
    ensures Matches(FullScan(frame, average, g), g) && Matches(HalfpelScan(frame, average, g), g)
  {
    EightFoldSizes(g);
    Exactly(g.vecWidth);
    Exactly(g.vecHeight);
    assert PowerOfTwo(2) && PowerOfTwo(4) && PowerOfTwo(8);
  }

  lemma Exactly(q: int)
    ensures 4 * q / 4 == q && 8 * q / 8 == q
  {
  }

  /** mb_search_22. */
  method SearchHalf(g: Textures)
    requires g.Valid()
    modifies g`id, g`owner, g`store, g`draws
    ensures g.Valid() && g.Only({Vector, Vector2, Vector3})
    ensures EightFold(g) ==>
      BuffersOf(g) == Scanned(HalfScan(old(g.Held(Sub2Ref)), old(g.Held(Sub2Avg)), g), old(BuffersOf(g)), g)
  {
    g.SizesFit();
    var c := Scan(WholePixel, g.Held(Sub2Ref), g.Held(Sub2Avg), 4, 2, g.sub2Width, g.sub2Height);
    if EightFold(g) { EightFoldMatches(c.frame, c.average, g); }
    Refine(g, Sub2Ref, Sub2Avg, c);
  }

  /** How far a block of the frame differs from the average where it is. */
  function NoMotion(frame: Texture, average: Texture, x: int, y: int): real {
    BlockSum(Window(frame, average, (0, 0), (0, 0)), 8 * x, 8 * y, 8, 8)
  }

  /** No block costs more than leaving it where it is. */
  ghost predicate NoDearerThanStill(v: Texture, frame: Texture, average: Texture, w: int, h: int) {
    forall x, y | 0 <= x < w && 0 <= y < h :: v(x, y).z <= NoMotion(frame, average, x, y)
  }

  /** Staying in place has been tried: the block has the better of its vector and (0, 0). */
  ghost predicate StillTried(v': Texture, v: Texture, frame: Texture, average: Texture, w: int, h: int) {
    forall x, y | 0 <= x < w && 0 <= y < h ::
      v'(x, y) == VectorUpdate(v(x, y), Texel(0.0, 0.0, NoMotion(frame, average, x, y), 1.0))
  }

  lemma StillIsNoWorse(v': Texture, v: Texture, frame: Texture, average: Texture, w: int, h: int)
    requires StillTried(v', v, frame, average, w, h)
    ensures NoDearerThanStill(v', frame, average, w, h) && NoWorse(v', v, w, h)
  {
    var win := Window(frame, average, (0, 0), (0, 0));
    forall i, j ensures win(i, j) >= 0.0 {
      WindowIsLarge(frame, average, (0, 0), i, j);
    }
    forall x, y | 0 <= x < w && 0 <= y < h
      ensures v'(x, y).z <= NoMotion(frame, average, x, y) && NoWorseAt(v'(x, y), v(x, y))
    {
      BlockAtLeast(win, 8 * x, 8 * y, 8, 8, 0.0);
    }
  }

  lemma StillShrinks(sums: Texture, frame: Texture, average: Texture, w: int, h: int, x: int, y: int)
    requires HoldsWindows(sums, frame, average, (0, 0), (0, 0), 8 * w, 8 * h) && 0 <= x < w && 0 <= y < h
    ensures Shrunk(sums, 8, x, y) == Texel(0.0, 0.0, NoMotion(frame, average, x, y), 1.0)
  {
    BlockSame(Costs(sums), Window(frame, average, (0, 0), (0, 0)), 8 * x, 8 * y, 8, 8);
  }

  /** The end of mb_search_11, where staying in place is tried once more. */
  method TryStill(g: Textures)
    requires g.Valid()
    modifies g`id, g`owner, g`store, g`draws
    ensures g.Valid() && g.Only({Vector, Vector2, Vector3})
    ensures EightFold(g) ==>
      var v, frame, average := old(g.Held(Vector)), old(g.Held(Ref)), old(g.Held(Avg));
      StillTried(g.Held(Vector), v, frame, average, g.vecWidth, g.vecHeight)
  {
    ghost var v, frame, average := g.Held(Vector), g.Held(Ref), g.Held(Avg);
    SumDifferences(g, Ref, Avg, g.width, g.padHeight, (0, 0), (0, 0));
    ghost var sums := g.Held(Vector2);
    assert g.Held(Vector) == v;
    UpdateVectors(g, 8, g.width, g.padHeight);
    if EightFold(g) {
      EightFoldSizes(g);
      EightFoldMatches(frame, average, g);
      forall x, y | 0 <= x < g.vecWidth && 0 <= y < g.vecHeight
        ensures g.Held(Vector)(x, y) == VectorUpdate(v(x, y), Texel(0.0, 0.0, NoMotion(frame, average, x, y), 1.0))
      {
        StillShrinks(sums, frame, average, g.vecWidth, g.vecHeight, x, y);
      }
    }
  }

  /** mb_search_11. */
  method SearchFull(g: Textures)
    requires g.Valid()
    modifies g`id, g`owner, g`store, g`draws
    ensures g.Valid() && g.Only({Vector, Vector2, Vector3})
    ensures EightFold(g) ==>
      var frame, average := old(g.Held(Ref)), old(g.Held(Avg));
      var s := Scanned(FullScan(frame, average, g), old(BuffersOf(g)), g);
      StillTried(g.Held(Vector), s.vectors, frame, average, g.vecWidth, g.vecHeight)
    ensures EightFold(g) ==>
      NoDearerThanStill(g.Held(Vector), old(g.Held(Ref)), old(g.Held(Avg)), g.vecWidth, g.vecHeight)
  {
    var c := Scan(WholePixel, g.Held(Ref), g.Held(Avg), 8, 2, g.width, g.padHeight);
    if EightFold(g) { EightFoldMatches(c.frame, c.average, g); }
    Refine(g, Ref, Avg, c);
    ghost var v := g.Held(Vector);
    assert g.Held(Ref) == c.frame && g.Held(Avg) == c.average;
    TryStill(g);
    if EightFold(g) { StillIsNoWorse(g.Held(Vector), v, c.frame, c.average, g.vecWidth, g.vecHeight); }
  }

  function RangeShade(t: Texture, width: int, height: int): Texture {
    (x: int, y: int) => VectorRange(t(x, y), x, y, width, height)
  }

  /** Vectors that lead inside are kept, and those that do not are dropped without their costs. */
  ghost predicate Ranged(v': Texture, v: Texture, width: int, height: int, w: int, h: int) {
    forall x, y | 0 <= x < w && 0 <= y < h :: RangedAt(v'(x, y), v(x, y), x, y, width, height)
  }

  predicate RangedAt(v': Texel, v: Texel, x: int, y: int, width: int, height: int) {
    && v'.z == v.z && v'.w == v.w
    && (LeadsInside(v, x, y, width, height) ==> v' == v)
    && (!LeadsInside(v, x, y, width, height) ==> v'.x == 0.0 && v'.y == 0.0)
    && (0 <= 8 * x <= width && 32 <= 8 * y <= height + 32 ==> LeadsInside(v', x, y, width, height))
  }

  /** vector_range. */
  method DropOutOfRange(g: Textures)
    requires g.Valid()
    modifies g`id, g`owner, g`store, g`draws
    ensures g.Valid() && g.Only({Vector, Vector3})
    ensures Ranged(g.Held(Vector), old(g.Held(Vector)), g.width, g.height, g.vecWidth, g.vecHeight)
  {
    g.SizesFit();
    ghost var v := g.Held(Vector);
    var shade := RangeShade(g.Held(Vector), g.width, g.height);
    g.Render(Vector3, {}, {Vector}, shade, g.vecWidth, g.vecHeight);
    ghost var ranged := g.Held(Vector3);
    g.Swap(Vector, Vector3);
    forall x, y | 0 <= x < g.vecWidth && 0 <= y < g.vecHeight
      ensures RangedAt(g.Held(Vector)(x, y), v(x, y), x, y, g.width, g.height)
    {
      assert ranged(x, y) == VectorRange(v(x, y), x, y, g.width, g.height);
      VectorRangeStaysInside(v(x, y), x, y, g.width, g.height);
    }
  }

  /** mb_search_00. */
  method SearchHalfPixels(g: Textures, threshold: real) returns (bad: int)
    requires g.Valid()
    modifies g`id, g`owner, g`store, g`draws
    ensures g.Valid() && g.Only({Vector, Vector2, Vector3, Bad, Bad2})
    ensures EightFold(g) ==>
      var s := Scanned(HalfpelScan(old(g.Held(Ref)), old(g.Held(Avg)), g), old(BuffersOf(g)), g);
      Ranged(g.Held(Vector), s.vectors, g.width, g.height, g.vecWidth, g.vecHeight)
    ensures Counts(bad, g.Held(Vector), threshold, g)
  {
    var c := Scan(HalfPixel, g.Held(Ref), g.Held(Avg), 8, 1, g.width, g.padHeight);
    if EightFold(g) { EightFoldMatches(c.frame, c.average, g); }
    Refine(g, Ref, Avg, c);
    ghost var v := g.Held(Vector);
    bad := CountBadVectors(g, threshold);
    assert g.Held(Vector) == v;
    DropOutOfRange(g);
    RangedCounts(bad, g.Held(Vector), v, threshold, g);
  }

  lemma RangedIsNoWorse(v': Texture, v: Texture, width: int, height: int, w: int, h: int)
    requires Ranged(v', v, width, height, w, h)
    ensures NoWorse(v', v, w, h)
  {
    forall x, y | 0 <= x < w && 0 <= y < h ensures NoWorseAt(v'(x, y), v(x, y)) {
      assert RangedAt(v'(x, y), v(x, y), x, y, width, height);
    }
  }

  /** A picture at full, half and quarter size. */
  datatype Levels = Levels(full: Texture, half: Texture, quarter: Texture)

  /** What the finer searches make of the vectors and accumulators they start from. */
  ghost predicate FineResult(v: Texture, start: Buffers, ref: Levels, avg: Levels, g: Textures) {
    var half := Scanned(HalfScan(ref.half, avg.half, g), start, g);
    var full := Scanned(FullScan(ref.full, avg.full, g), half, g);
    exists still: Buffers ::
      && StillTried(still.vectors, full.vectors, ref.full, avg.full, g.vecWidth, g.vecHeight)
      && Ranged(v, Scanned(HalfpelScan(ref.full, avg.full, g), still, g).vectors, g.width, g.height,
                g.vecWidth, g.vecHeight)
  }

  /** No block that had a vector has lost it, or has one that costs more. */
  lemma FineIsNoWorse(v: Texture, start: Buffers, ref: Levels, avg: Levels, g: Textures)
    requires EightFold(g) && FineResult(v, start, ref, avg, g)
    ensures NoWorse(v, start.vectors, g.vecWidth, g.vecHeight)
  {
    var w, h := g.vecWidth, g.vecHeight;
    var half := Scanned(HalfScan(ref.half, avg.half, g), start, g);
    var full := Scanned(FullScan(ref.full, avg.full, g), half, g);
    var still: Buffers :|
      && StillTried(still.vectors, full.vectors, ref.full, avg.full, w, h)
      && Ranged(v, Scanned(HalfpelScan(ref.full, avg.full, g), still, g).vectors, g.width, g.height, w, h);
    var last := Scanned(HalfpelScan(ref.full, avg.full, g), still, g);
    EightFoldMatches(ref.half, avg.half, g);
    EightFoldMatches(ref.full, avg.full, g);
    RoundsAreNoWorse(HalfScan(ref.half, avg.half, g), start, 5, g);
    RoundsAreNoWorse(FullScan(ref.full, avg.full, g), half, 5, g);
    StillIsNoWorse(still.vectors, full.vectors, ref.full, avg.full, w, h);
    RoundsAreNoWorse(HalfpelScan(ref.full, avg.full, g), still, 3, g);
    RangedIsNoWorse(v, last.vectors, g.width, g.height, w, h);
    NoWorseYet(full.vectors, half.vectors, start.vectors, w, h);
    NoWorseYet(still.vectors, full.vectors, start.vectors, w, h);
    NoWorseYet(last.vectors, still.vectors, start.vectors, w, h);
    NoWorseYet(v, last.vectors, start.vectors, w, h);
  }

  lemma RangedCounts(bad: int, v': Texture, v: Texture, threshold: real, g: Textures)
    requires g.vecWidth >= 1 && g.vecHeight >= 1 && Counts(bad, v, threshold, g)
    requires Ranged(v', v, g.width, g.height, g.vecWidth, g.vecHeight)
    ensures Counts(bad, v', threshold, g)
  {
    var s := Counted(g);
    if s.exact {
      SquareIsInside(g);
      forall x, y | 0 <= x < s.n && 0 <= y < s.n
        ensures BadBlocks(v', threshold)(x, y) == BadBlocks(v, threshold)(x, y)
      {
        assert RangedAt(v'(x, y), v(x, y), x, y, g.width, g.height);
      }
      BlockSame(BadBlocks(v', threshold), BadBlocks(v, threshold), 0, 0, s.n, s.n);
    }
  }

  // ----- What is found, and what move_frame makes of it -----

  /** A vector of half pixels. */
  function VectorOf(v: Offset): Texel {
    Texel(v.0 as real, v.1 as real, 0.0, 1.0)
  }

  /** Moving the average along v gives the frame. */
  ghost predicate Compensates(frame: Texture, average: Texture, v: Offset) {
    forall x, y :: SamePixel(MoveFrame(average, VectorOf(v), x, y), frame(x, y))
  }

  /** The offset o costs nothing but its penalty, wherever it is tried. */
  ghost predicate Matched(frame: Texture, average: Texture, o: Offset) {
    forall x, y :: SamePixel(frame(x + o.0, y + o.1), average(x, y))
  }

  /** A picture that shows at each point where it is. */
  function Ramp(): Texture {
    (x: int, y: int) => Texel(x as real, y as real, 0.0, 1.0)
  }

  function RampFrom(o: Offset): Texture {
    (x: int, y: int) => Texel((x - o.0) as real, (y - o.1) as real, 0.0, 1.0)
  }

  lemma RampMoves(v: Offset)
    ensures var m := MoveFrame(Ramp(), VectorOf(v), 0, 0); m.x + m.x == v.0 as real && m.y + m.y == v.1 as real
  {
    var a, b := MoveIsHalfway(Ramp(), v.0, v.1, 0.0, 1.0, 0, 0);
  }

  /** SAD and SAD_pass2 look for the average in the frame, but move_frame goes the same way in the
      average: a motion that was matched exactly is compensated only if there is none. */
  lemma MatchIsCompensatedIff(o: Offset)
    ensures (forall frame: Texture, average: Texture | Matched(frame, average, o) ::
              Compensates(frame, average, (2 * o.0, 2 * o.1))) <==> o == (0, 0)
  {
    if o == (0, 0) {
      forall frame: Texture, average: Texture | Matched(frame, average, o)
        ensures Compensates(frame, average, (2 * o.0, 2 * o.1))
      {
        forall x, y ensures SamePixel(MoveFrame(average, VectorOf((0, 0)), x, y), frame(x, y)) {
          assert SamePixel(frame(x + o.0, y + o.1), average(x, y));
          MoveStays(average, VectorOf((0, 0)), x, y, average(x, y));
        }
      }
    } else {
      var frame, v := RampFrom(o), (2 * o.0, 2 * o.1);
      assert Matched(frame, Ramp(), o);
      RampMoves(v);
      assert !SamePixel(MoveFrame(Ramp(), VectorOf(v), 0, 0), frame(0, 0));
      assert !Compensates(frame, Ramp(), v);
    }
  }

  /** What SAD_halfpel compares with the frame when a block has the vector v. */
  function HalfpelSample(average: Texture, v: Offset, o: Offset, x: int, y: int): Texel {
    MeanOf(average(x + 2 * v.0, y + 2 * v.1), average(x + 2 * v.0 + o.0, y + 2 * v.1 + o.1))
  }

  lemma HalfpelCompares(t: Try, v: Offset, i: int, j: int)
    requires t.kind == HalfPixel
    ensures Misses(t, VectorOf(v))(i, j) == Difference(HalfpelSample(t.average, v, t.offset, i, j), t.frame(i, j))
  {
    WholeTexel(2 * v.0);
    WholeTexel(2 * v.1);
    WholeTexel(2 * v.0 + t.offset.0);
    WholeTexel(2 * v.1 + t.offset.1);
  }

  lemma WholeTexel(n: int)
    ensures TexelAt(n as real) == n
  {
  }

  /** The candidate of SAD_halfpel for v and o leads move_frame to what was compared only if v is zero:
      the whole pixels of v are counted twice. */
  lemma HalfpelIsMovedIff(v: Offset, o: Offset)
    requires -1 <= o.0 <= 1 && -1 <= o.1 <= 1
    ensures (forall average: Texture, x, y ::
              MoveFrame(average, VectorOf((2 * v.0 + o.0, 2 * v.1 + o.1)), x, y) == HalfpelSample(average, v, o, x, y))
       <==> v == (0, 0)
  {
    var n := (2 * v.0 + o.0, 2 * v.1 + o.1);
    if v == (0, 0) {
      forall average: Texture, x, y
        ensures MoveFrame(average, VectorOf(n), x, y) == HalfpelSample(average, v, o, x, y)
      {
        StepMoves(average, o, x, y);
      }
    } else {
      RampMoves(n);
      RampIsSampled(v, o);
      assert MoveFrame(Ramp(), VectorOf(n), 0, 0) != HalfpelSample(Ramp(), v, o, 0, 0);
    }
  }

  lemma RampIsSampled(v: Offset, o: Offset)
    ensures var m := HalfpelSample(Ramp(), v, o, 0, 0);
      m.x + m.x == (4 * v.0 + o.0) as real && m.y + m.y == (4 * v.1 + o.1) as real
  {
  }

  lemma StepMoves(average: Texture, o: Offset, x: int, y: int)
    requires -1 <= o.0 <= 1 && -1 <= o.1 <= 1
    ensures MoveFrame(average, VectorOf(o), x, y) == MeanOf(average(x, y), average(x + o.0, y + o.1))
  {
    HalfStep(o.0);
    HalfStep(o.1);
  }

  lemma HalfStep(n: int)
    requires -1 <= n <= 1
    ensures Truncated(n as real / 2.0) == 0 && TexelAt(n as real) == n
  {
  }

  // ----- Counting bad vectors -----

  function BadShade(t: Texture, threshold: real): Texture {
    (x: int, y: int) => VectorBadcheck(t(x, y), threshold)
  }

  /** 1 for each bad block. */
  function BadBlocks(vectors: Texture, threshold: real): Grid {
    (x: int, y: int) => Step(threshold, vectors(x, y).z)
  }

  /** Where the loop ends: at one pixel in width or height. */
  function Square(s: Halving): Halving
    requires s.w >= 1 && s.h >= 1
    decreases s.w
  {
    if s.w > 1 && s.h > 1 then Square(Next(s)) else s
  }

  /** How far the loop of vector_badcheck gets. */
  function Counted(g: Textures): Halving
    requires g.vecWidth >= 1 && g.vecHeight >= 1
  {
    Square(Halving(1, g.vecWidth, g.vecHeight, true))
  }

  /** Where all halvings are exact, this is the number of bad blocks in the square at the origin. */
  ghost predicate Counts(bad: int, vectors: Texture, threshold: real, g: Textures) {
    && g.vecWidth >= 1 && g.vecHeight >= 1
    && (Counted(g).exact ==> bad as real == BlockSum(BadBlocks(vectors, threshold), 0, 0, Counted(g).n, Counted(g).n))
  }

  /** The square is inside the picture. */
  lemma SquareIsInside(g: Textures)
    requires g.vecWidth >= 1 && g.vecHeight >= 1
    ensures Counted(g).exact ==> 1 <= Counted(g).n <= g.vecWidth && Counted(g).n <= g.vecHeight
  {
    SquareIsWhole(Halving(1, g.vecWidth, g.vecHeight, true), g.vecWidth, g.vecHeight);
    var s := Counted(g);
    if s.exact {
      Product(s.n, s.w);
      Product(s.n, s.h);
    }
  }

  lemma {:induction false} SquareIsWhole(s: Halving, w: int, h: int)
    requires s.w >= 1 && s.h >= 1 && s.n >= 1 && (s.exact ==> s.n * s.w == w && s.n * s.h == h)
    ensures var r := Square(s);
      r.w >= 1 && r.h >= 1 && r.n >= 1 && (r.exact ==> r.n * r.w == w && r.n * r.h == h)
    decreases s.w
  {
    if s.w > 1 && s.h > 1 {
      if Next(s).exact {
        assert s.w == 2 * Half(s.w) && s.h == 2 * Half(s.h);
        assert (2 * s.n) * Half(s.w) == s.n * s.w && (2 * s.n) * Half(s.h) == s.n * s.h by {
          Doubled(s.n, Half(s.w));
          Doubled(s.n, Half(s.h));
          Doubled(Half(s.w), s.n);
          Doubled(Half(s.h), s.n);
        }
      }
      SquareIsWhole(Next(s), w, h);
    }
  }

  /** If the smaller size is a power of two that divides the larger one, one pixel stands for a
      square of that size. */
  lemma {:induction false} SquareIsExact(n: int, d: nat, across: int, down: int, w: int, h: int)
    requires PowerOfTwo(n) && across >= 1 && down >= 1 && (across == 1 || down == 1)
    requires w == n * across && h == n * down
    ensures w >= 1 && h >= 1
    ensures Square(Halving(d, w, h, true)) == Halving(n * d, across, down, true)
    decreases n
  {
    Product(n, across);
    Product(n, down);
    if n > 1 {
      var j := n / 2;
      Doubled(j, across);
      Doubled(j, down);
      HalfOfTwice(w, j * across);
      HalfOfTwice(h, j * down);
      SquareIsExact(j, 2 * d, across, down, j * across, j * down);
      assert Next(Halving(d, w, h, true)) == Halving(2 * d, j * across, j * down, true);
      assert j * (2 * d) == (2 * j) * d by { Doubled(j, d); Doubled(d, j); }
    }
  }

  lemma HalfOfTwice(n: int, q: int)
    requires n == 2 * q
    ensures n % 2 == 0 && Half(n) == q
  {
  }

  lemma Product(n: int, k: int)
    requires n >= 1 && k >= 1
    ensures n * k >= n && n * k >= k
    ensures n > 1 ==> n * k > 1
  {
  }

  lemma {:induction false} BitsInRow(f: Grid, x: int, y: int, n: nat) returns (count: int)
    requires forall i, j :: f(i, j) == 0.0 || f(i, j) == 1.0
    ensures RowSum(f, x, y, n) == count as real
  {
    count := 0;
    if n > 0 {
      count := BitsInRow(f, x, y, n - 1);
      count := count + if f(x + n - 1, y) == 1.0 then 1 else 0;
    }
  }

  /** A sum of zeros and ones is a number of ones. */
  lemma {:induction false} BitsInBlock(f: Grid, x: int, y: int, w: nat, h: nat) returns (count: int)
    requires forall i, j :: f(i, j) == 0.0 || f(i, j) == 1.0
    ensures BlockSum(f, x, y, w, h) == count as real && count >= 0
  {
    forall i, j ensures f(i, j) >= 0.0 {
    }
    BlockIsZeroIff(f, x, y, w, h);
    count := 0;
    if h > 0 {
      var above := BitsInBlock(f, x, y, w, h - 1);
      var row := BitsInRow(f, x, y + h - 1, w);
      count := above + row;
    }
  }

  /** What is read back, times the area it stands for. */
  function CountOf(mean: real, factor: real): int {
    Truncated(mean * factor)
  }

  /** Multiplying the mean by the area gives the number back. */
  lemma MeanCounts(vectors: Texture, threshold: real, n: nat, mean: real, factor: real)
    requires n > 0 && mean == Mean(BadBlocks(vectors, threshold), n, 0, 0) && factor == Area(n)
    ensures CountOf(mean, factor) as real == BlockSum(BadBlocks(vectors, threshold), 0, 0, n, n)
  {
    var f := BadBlocks(vectors, threshold);
    forall i, j ensures f(i, j) == 0.0 || f(i, j) == 1.0 {
      assert f(i, j) == Step(threshold, vectors(i, j).z);
    }
    var count := BitsInBlock(f, 0, 0, n, n);
    assert n * n > 0;
    assert mean * factor == count as real;
    assert Truncated(count as real) == count;
    assert BlockSum(f, 0, 0, n, n) == count as real;
    assert CountOf(mean, factor) == Truncated(count as real);
  }

  /** vector_badcheck: halves the map of bad blocks until it is one pixel high or wide, and reads
      the first pixel. Where all halvings are exact this counts the bad blocks of the square at the
      origin, and no others. */
  method CountBadVectors(g: Textures, threshold: real) returns (bad: int)
    requires g.Valid()
    modifies g`id, g`owner, g`store, g`draws
    ensures g.Valid() && g.Only({Bad, Bad2})
    ensures Counts(bad, old(g.Held(Vector)), threshold, g)
  {
    g.SizesFit();
    ghost var vectors := g.Held(Vector);
    ghost var f := BadBlocks(vectors, threshold);
    MarkBad(g, threshold);
    var factor;
    ghost var s;
    factor, s := ReduceBad(g, f);
    var first := g.Held(Bad)(0, 0).x;
    bad := CountOf(first, factor);
    if s.exact { MeanCounts(vectors, threshold, s.n, first, factor); }
  }

  function Area(n: nat): real {
    (n * n) as real
  }

  lemma AreaDoubles(n: nat)
    ensures Area(2 * n) == Area(n) * 4.0
  {
    assert (2 * n) * (2 * n) == 4 * (n * n);
  }

  /** The loop. */
  method ReduceBad(g: Textures, ghost f: Grid) returns (factor: real, ghost s: Halving)
    requires g.Valid() && 1 <= g.vecWidth && 1 <= g.vecHeight && HoldsMeans(g.Held(Bad), f, 1, g.vecWidth, g.vecHeight)
    modifies g`id, g`owner, g`store, g`draws
    ensures g.Valid() && g.Only({Bad, Bad2})
    ensures s == Square(Halving(1, g.vecWidth, g.vecHeight, true)) && s.n > 0 && factor == Area(s.n)
    ensures s.exact ==> g.Held(Bad)(0, 0).x == Mean(f, s.n, 0, 0)
  {
    s := Halving(1, g.vecWidth, g.vecHeight, true);
    factor := 1.0;
    var x, y := g.vecWidth, g.vecHeight;
    while x > 1 && y > 1
      invariant g.Valid() && g.Only({Bad, Bad2})
      invariant 1 <= x <= g.vecWidth && 1 <= y <= g.vecHeight && s.w == x && s.h == y
      invariant Square(s) == Square(Halving(1, g.vecWidth, g.vecHeight, true))
      invariant s.n > 0 && factor == Area(s.n)
      invariant s.exact ==> HoldsMeans(g.Held(Bad), f, s.n, x, y)
    {
      HalveBad(g, x, y, f, s);
      AreaDoubles(s.n);
      factor := factor * 4.0;
      x, y, s := Half(x), Half(y), Next(s);
    }
  }

  method MarkBad(g: Textures, threshold: real)
    requires g.Valid()
    modifies g`store, g`draws
    ensures g.Valid() && g.Only({Bad})
    ensures HoldsMeans(g.Held(Bad), BadBlocks(old(g.Held(Vector)), threshold), 1, g.vecWidth, g.vecHeight)
  {
    ghost var f := BadBlocks(g.Held(Vector), threshold);
    var shade := BadShade(g.Held(Vector), threshold);
    g.Render(Bad, {}, {Vector}, shade, g.vecWidth, g.vecHeight);
    forall x, y | 0 <= x < g.vecWidth && 0 <= y < g.vecHeight ensures g.Held(Bad)(x, y).x == Mean(f, 1, x, y) {
      MeanOfOne(f, x, y);
      assert f(x, y) == Step(threshold, old(g.Held(Vector))(x, y).z);
    }
  }

  method HalveBad(g: Textures, w: int, h: int, ghost f: Grid, ghost s: Halving)
    requires g.Valid() && 0 <= w <= g.vecWidth && 0 <= h <= g.vecHeight
    requires s.n > 0 && s.w == w && s.h == h && (s.exact ==> HoldsMeans(g.Held(Bad), f, s.n, w, h))
    modifies g`id, g`owner, g`store, g`draws
    ensures g.Valid() && g.Only({Bad, Bad2})
    ensures Next(s).exact ==> HoldsMeans(g.Held(Bad), f, 2 * s.n, Half(w), Half(h))
  {
    ghost var before, picture := g.Held(Bad2), g.Held(Bad);
    var shade := MeanShade(g.Held(Bad));
    g.Decimate(Bad2, Bad, shade, w, h);
    ghost var halved := g.Held(Bad2);
    if Next(s).exact {
      HalvedHoldsMeans(halved, before, picture, f, s.n, w / 2, h / 2);
    }
    g.Swap(Bad2, Bad);
  }
}
