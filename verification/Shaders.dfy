/** The per-pixel functions of src/yuvdenoise.cg and src/yuv420p.cg over exact reals, and how far their results can be
    from what went in. */
module Shaders {

  /** What a texture holds at a point: three colour parts, or a motion vector with its cost and a
      mark that says it is set. */
  datatype Texel = Texel(x: real, y: real, z: real, w: real)

  /** A texture as it is sampled, for any coordinates. */
  type Texture = (int, int) -> Texel

  function Abs(r: real): real {
    if r < 0.0 then -r else r
  }

  function Clamp(r: real, low: real, high: real): real {
    if r < low then low else if r > high then high else r
  }

  function Lerp(a: real, b: real, f: real): real {
    a + f * (b - a)
  }

  function Step(threshold: real, r: real): real {
    if r >= threshold then 1.0 else 0.0
  }

  predicate Between(r: real, a: real, b: real) {
    a <= r <= b || b <= r <= a
  }

  /** r is the value of the range that is nearest to t. */
  predicate Nearest(r: real, t: real, low: real, high: real) {
    low <= r <= high && (r < t ==> r == high) && (t < r ==> r == low)
  }

  // ----- Planes (src/yuv420p.cg) -----

  /** yuv_input: each chroma texel serves two by two pixels. */
  function YuvInput(y: Texture, u: Texture, v: Texture, i: int, j: int): Texel {
    Texel(y(i, j).x, u(i / 2, j / 2).x, v(i / 2, j / 2).x, 1.0)
  }

  /** y_output, u_output and v_output. */
  function Gray(value: real): Texel {
    Texel(value, value, value, 1.0)
  }

  // ----- correct_frame2 -----

  function CorrectPart(a: real, b: real, threshold: real): real
    requires threshold > 0.0
  {
    var q := Abs(a - b);
    var f := Clamp((q - threshold) / threshold, 0.0, 1.0);
    if q > threshold then Lerp(b, a, f) else b
  }

  /** Pulls the average b back towards the frame a where they differ too much. */
  function CorrectFrame2(a: Texel, b: Texel, threshold: real): Texel
    requires threshold > 0.0
  {
    Texel(CorrectPart(a.x, b.x, threshold), CorrectPart(a.y, b.y, threshold), CorrectPart(a.z, b.z, threshold), 1.0)
  }

  /** Where g = q / t lies follows from where q lies. */
  lemma Ratio(g: real, q: real, t: real, bound: real)
    requires t > 0.0 && g * t == q
    ensures q <= bound * t <==> g <= bound
    ensures q >= bound * t <==> g >= bound
  {
    if g <= bound {
      assert (bound - g) * t >= 0.0;
    } else {
      assert (g - bound) * t > 0.0;
    }
  }

  /** The part left over after moving a fraction f of the way is (1 - f) of the distance. */
  lemma LerpLeaves(a: real, b: real, f: real)
    requires 0.0 <= f <= 1.0
    ensures Abs(Lerp(b, a, f) - a) == (1.0 - f) * Abs(a - b)
  {
    var rest, d := 1.0 - f, b - a;
    assert Lerp(b, a, f) - a == rest * d;
    if d >= 0.0 {
      ProductSign(rest, d);
    } else {
      ProductSign(rest, -d);
      assert rest * -d == -(rest * d);
    }
  }

  lemma ProductSign(u: real, v: real)
    requires u >= 0.0 && v >= 0.0
    ensures u * v >= 0.0
  {
  }

  /** Shared by the shaders that start to pull at a distance of one threshold and pull all the way
      at two: the distance left is never more than the threshold. */
  lemma PullBound(q: real, t: real, f: real)
    requires t > 0.0 && t <= q <= 2.0 * t && f * t == q - t
    ensures (1.0 - f) * q <= t
  {
    assert (t - (q - t)) * q <= t * t by {
      assert (q - t) * (q - t) >= 0.0;
      assert (q - t) * (q - t) == q * q - 2.0 * (q * t) + t * t;
      assert (t - (q - t)) * q == 2.0 * (q * t) - q * q;
    }
    assert ((1.0 - f) * q) * t == (t - f * t) * q;
    Ratio((1.0 - f) * q, ((1.0 - f) * q) * t, t, t);
  }

  /** Whatever the average was, the corrected value is within the threshold of the frame. */
  lemma CorrectPartBound(a: real, b: real, threshold: real)
    requires threshold > 0.0
    ensures Abs(CorrectPart(a, b, threshold) - a) <= threshold
  {
    var q := Abs(a - b);
    var g := (q - threshold) / threshold;
    if q > threshold {
      Ratio(g, q - threshold, threshold, 0.0);
      Ratio(g, q - threshold, threshold, 1.0);
      if q <= 2.0 * threshold {
        LerpLeaves(a, b, g);
        PullBound(q, threshold, g);
      } else {
        LerpLeaves(a, b, 1.0);
      }
    }
  }

  /** How far b is pulled towards a: not at all up to one threshold apart, all the way from two
      thresholds on, and in between by a part that grows evenly from nothing to everything. */
  predicate Corrected(r: real, a: real, b: real, threshold: real) {
    var q := Abs(a - b);
    && (q <= threshold ==> r == b)
    && (threshold <= q <= 2.0 * threshold ==> Between(r, b, a) && threshold * Abs(r - b) == (q - threshold) * q)
    && (2.0 * threshold <= q ==> r == a)
  }

  /** Moving by the part d / t of the way. */
  lemma LerpMoves(a: real, b: real, f: real, d: real, t: real)
    requires t > 0.0 && 0.0 <= f <= 1.0 && f * t == d
    ensures Between(Lerp(b, a, f), b, a) && t * Abs(Lerp(b, a, f) - b) == d * Abs(a - b)
  {
    var q := Abs(a - b);
    assert 0.0 <= f * q && 0.0 <= (1.0 - f) * q by {
      ProductSign(f, q);
      ProductSign(1.0 - f, q);
    }
    assert (1.0 - f) * q == q - f * q;
    assert if a >= b then f * (a - b) == f * q else f * (a - b) == -(f * q);
    assert Abs(Lerp(b, a, f) - b) == f * q;
    assert t * (f * q) == (f * t) * q;
  }

  lemma CorrectPartPulls(a: real, b: real, threshold: real)
    requires threshold > 0.0
    ensures Corrected(CorrectPart(a, b, threshold), a, b, threshold)
  {
    var q := Abs(a - b);
    var g := (q - threshold) / threshold;
    Ratio(g, q - threshold, threshold, 0.0);
    Ratio(g, q - threshold, threshold, 1.0);
    if threshold <= q <= 2.0 * threshold {
      LerpMoves(a, b, g, q - threshold, threshold);
    }
  }

  // ----- denoise_frame_pass2 -----

  function Pass2Luma(a: real, b: real, ppThreshold: real): real
    requires ppThreshold > 0.0
  {
    Lerp(b, a, Clamp(Abs(a - b) / ppThreshold, 0.0, 1.0))
  }

  function Pass2Chroma(a: real, b: real, ppThreshold: real): real
    requires ppThreshold > 0.0
  {
    var b' := (b * 2.0 + a) / 3.0;
    Lerp(b', a, Clamp((Abs(a - b') - ppThreshold) / ppThreshold, 0.0, 1.0))
  }

  function DenoisePass2(a: Texel, b: Texel, ppThreshold: real): Texel
    requires ppThreshold > 0.0
  {
    Texel(Pass2Luma(a.x, b.x, ppThreshold), Pass2Chroma(a.y, b.y, ppThreshold), Pass2Chroma(a.z, b.z, ppThreshold), 1.0)
  }

  /** The previous luma b is pulled towards a by a part that grows evenly with the distance, all the
      way from one threshold on. */
  predicate LumaBlended(r: real, a: real, b: real, ppThreshold: real) {
    var q := Abs(a - b);
    && (q <= ppThreshold ==> Between(r, b, a) && ppThreshold * Abs(r - b) == q * q)
    && (ppThreshold <= q ==> r == a)
  }

  /** The previous chroma b is first moved a third of the way, to b', and from there as in Corrected. */
  ghost predicate ChromaBlended(r: real, a: real, b: real, ppThreshold: real) {
    exists b': real :: Between(b', b, a) && 3.0 * Abs(b' - b) == Abs(a - b) && Corrected(r, a, b', ppThreshold)
  }

  lemma Pass2LumaBlends(a: real, b: real, pp: real)
    requires pp > 0.0
    ensures LumaBlended(Pass2Luma(a, b, pp), a, b, pp)
  {
    var q := Abs(a - b);
    var g := q / pp;
    Ratio(g, q, pp, 0.0);
    Ratio(g, q, pp, 1.0);
    if q <= pp {
      LerpMoves(a, b, g, q, pp);
    }
  }

  lemma Pass2ChromaBlends(a: real, b: real, pp: real)
    requires pp > 0.0
    ensures ChromaBlended(Pass2Chroma(a, b, pp), a, b, pp)
  {
    var b' := (b * 2.0 + a) / 3.0;
    assert Between(b', b, a) && 3.0 * Abs(b' - b) == Abs(a - b);
    var q := Abs(a - b');
    var g := (q - pp) / pp;
    Ratio(g, q - pp, pp, 0.0);
    Ratio(g, q - pp, pp, 1.0);
    if pp <= q <= 2.0 * pp {
      LerpMoves(a, b', g, q - pp, pp);
    }
    assert Corrected(Pass2Chroma(a, b, pp), a, b', pp);
  }

  /** Luma moves by no more than a quarter of the threshold. */
  lemma Pass2LumaBound(a: real, b: real, pp: real)
    requires pp > 0.0
    ensures Abs(Pass2Luma(a, b, pp) - a) <= pp / 4.0
  {
    var d := Abs(a - b);
    var g := d / pp;
    Ratio(g, d, pp, 0.0);
    if g <= 1.0 {
      LerpLeaves(a, b, g);
      HalfwayIsWorst(g, d, pp);
    } else {
      LerpLeaves(a, b, 1.0);
    }
  }

  /** What is left of d, as g grows from 0 to 1 with it, is largest half-way. */
  lemma HalfwayIsWorst(g: real, d: real, t: real)
    requires t > 0.0 && g * t == d
    ensures (1.0 - g) * d <= t / 4.0
  {
    assert (1.0 - g) * g <= 0.25 by {
      assert (g - 0.5) * (g - 0.5) >= 0.0;
      assert (g - 0.5) * (g - 0.5) == g * g - g + 0.25;
    }
    assert ((1.0 - g) * g) * t <= 0.25 * t;
    assert (1.0 - g) * d == ((1.0 - g) * g) * t;
  }

  lemma Pass2LumaBoundIsTight(a: real, pp: real)
    requires pp > 0.0
    ensures Abs(Pass2Luma(a, a + pp / 2.0, pp) - a) == pp / 4.0
  {
    var g := Abs(a - (a + pp / 2.0)) / pp;
    assert g * pp == pp / 2.0;
    assert g == 0.5;
    LerpLeaves(a, a + pp / 2.0, 0.5);
  }

  /** Chroma moves by no more than the threshold. */
  lemma Pass2ChromaBound(a: real, b: real, pp: real)
    requires pp > 0.0
    ensures Abs(Pass2Chroma(a, b, pp) - a) <= pp
  {
    var b' := (b * 2.0 + a) / 3.0;
    var d := Abs(a - b');
    var g := (d - pp) / pp;
    Ratio(g, d - pp, pp, 0.0);
    Ratio(g, d - pp, pp, 1.0);
    if d <= pp {
      LerpLeaves(a, b', 0.0);
    } else if d <= 2.0 * pp {
      LerpLeaves(a, b', g);
      PullBound(d, pp, g);
    } else {
      LerpLeaves(a, b', 1.0);
    }
  }

  /** From the reference frame through both shaders, whatever the averages held: luma is at most
      threshold + pp / 4 off, chroma at most threshold + pp. */
  lemma ErrorBound(frame: Texel, average: Texel, previous: Texel, threshold: real, pp: real)
    requires threshold > 0.0 && pp > 0.0
    ensures var r := DenoisePass2(CorrectFrame2(frame, average, threshold), previous, pp);
      && Abs(r.x - frame.x) <= threshold + pp / 4.0
      && Abs(r.y - frame.y) <= threshold + pp
      && Abs(r.z - frame.z) <= threshold + pp
  {
    var c := CorrectFrame2(frame, average, threshold);
    CorrectPartBound(frame.x, average.x, threshold);
    CorrectPartBound(frame.y, average.y, threshold);
    CorrectPartBound(frame.z, average.z, threshold);
    Pass2LumaBound(c.x, previous.x, pp);
    Pass2ChromaBound(c.y, previous.y, pp);
    Pass2ChromaBound(c.z, previous.z, pp);
  }

  /** ... and none of the three bounds can be improved. */
  lemma ErrorBoundIsTight(frame: Texel, threshold: real, pp: real)
    returns (average: Texel, previous: Texel)
    requires threshold > 0.0 && pp > 0.0
    ensures var r := DenoisePass2(CorrectFrame2(frame, average, threshold), previous, pp);
      && r.x - frame.x == threshold + pp / 4.0
      && r.y - frame.y == threshold + pp
      && r.z - frame.z == threshold + pp
  {
    average := Texel(frame.x + threshold, frame.y + threshold, frame.z + threshold, 1.0);
    previous := Texel(average.x + pp / 2.0, average.y + 1.5 * pp, average.z + 1.5 * pp, 1.0);
    Pass2LumaBoundIsTight(average.x, pp);
    LerpLeaves(average.x, average.x + pp / 2.0, 0.5);
    Ratio((pp - pp) / pp, 0.0, pp, 0.0);
  }

  // ----- move_frame -----

  /** Cut off towards zero. */
  function Truncated(r: real): int {
    if r >= 0.0 then r.Floor else -(-r).Floor
  }

  /** The texel that a place d away from the middle of texel 0 is in. */
  function TexelAt(d: real): int {
    (d + 0.5).Floor
  }

  function MeanOf(a: Texel, b: Texel): Texel {
    Texel((a.x + b.x) / 2.0, (a.y + b.y) / 2.0, (a.z + b.z) / 2.0, 1.0)
  }

  /** The mean of two samples that a motion vector of half-pixel steps leads to. */
  function MoveFrame(frame: Texture, v: Texel, x: int, y: int): Texel {
    var qx, qy := Truncated(v.x / 2.0), Truncated(v.y / 2.0);
    var sx, sy := v.x - (qx * 2) as real, v.y - (qy * 2) as real;
    MeanOf(frame(x + qx, y + qy), frame(x + qx + TexelAt(sx), y + qy + TexelAt(sy)))
  }

  predicate IsMean(m: Texel, a: Texel, b: Texel) {
    m.x - a.x == b.x - m.x && m.y - a.y == b.y - m.y && m.z - a.z == b.z - m.z && m.w == 1.0
  }

  /** The two samples are half the vector away on average, and next to each other. */
  lemma MoveIsHalfway(frame: Texture, vx: int, vy: int, cost: real, mark: real, x: int, y: int)
    returns (a: (int, int), b: (int, int))
    ensures (a.0 - x) + (b.0 - x) == vx && (a.1 - y) + (b.1 - y) == vy
    ensures -1 <= b.0 - a.0 <= 1 && -1 <= b.1 - a.1 <= 1
    ensures IsMean(MoveFrame(frame, Texel(vx as real, vy as real, cost, mark), x, y), frame(a.0, a.1), frame(b.0, b.1))
  {
    HalfOf(vx);
    HalfOf(vy);
    a := (x + Truncated(vx as real / 2.0), y + Truncated(vy as real / 2.0));
    b := (2 * x + vx - a.0, 2 * y + vy - a.1);
  }

  lemma HalfOf(n: int)
    ensures var q := Truncated(n as real / 2.0);
      -1 <= n - 2 * q <= 1 && TexelAt(n as real - (q * 2) as real) == n - 2 * q
  {
    var h := n as real / 2.0;
    var q := Truncated(h);
    assert if n >= 0 then q as real <= h < q as real + 1.0 else -h < -q as real + 1.0 && -q as real <= -h;
    assert n as real - (q * 2) as real == (n - 2 * q) as real;
  }

  /** Without a vector, and where all texels are alike, the average stays as it is. */
  lemma MoveStays(frame: Texture, v: Texel, x: int, y: int, value: Texel)
    requires (v.x == 0.0 && v.y == 0.0 && frame(x, y) == value) || forall i, j :: frame(i, j) == value
    ensures MoveFrame(frame, v, x, y) == value.(w := 1.0)
  {
  }

  // ----- average_frame -----

  function Average(avg: real, frame: real, delay: real): real
    requires delay >= 0.0
  {
    (avg * delay + frame) / (delay + 1.0)
  }

  function AverageFrame(avg: Texel, frame: Texel, delay: real): Texel
    requires delay >= 0.0
  {
    Texel(Average(avg.x, frame.x, delay), Average(avg.y, frame.y, delay), Average(avg.z, frame.z, delay), 1.0)
  }

  /** The average divides the way from the old average to the frame as 1 : delay, so that a frame that
      stays is approached by the factor delay / (delay + 1) each time. */
  lemma AverageDivides(avg: real, frame: real, delay: real)
    requires delay >= 0.0
    ensures var r := Average(avg, frame, delay);
      && Between(r, avg, frame)
      && delay * Abs(r - avg) == Abs(frame - r)
      && (delay + 1.0) * Abs(frame - r) == delay * Abs(frame - avg)
      && (delay == 0.0 ==> r == frame)
  {
    var r, d := Average(avg, frame, delay), frame - avg;
    var step := d / (delay + 1.0);
    assert r - avg == step && frame - r == delay * step by {
      assert step * (delay + 1.0) == d;
      assert (avg + step) * (delay + 1.0) == avg * delay + frame;
    }
    if d >= 0.0 {
      Ratio(step, d, delay + 1.0, 0.0);
      ProductSign(delay, step);
    } else {
      Ratio(-step, -d, delay + 1.0, 0.0);
      ProductSign(delay, -step);
      assert delay * -step == -(delay * step);
    }
    assert (delay + 1.0) * (delay * step) == delay * d;
  }

  // ----- sharpen_frame -----

  const BLACK := 0.062745098
  const LUMA_WHITE := 0.921568627
  const CHROMA_WHITE := 0.937254902

  function SharpenFrame(frame: Texture, x: int, y: int, sharpen: real): Texel {
    var v := frame(x, y);
    var m := (v.x + frame(x + 1, y).x + frame(x + 1, y + 1).x + frame(x, y + 1).x) / 4.0;
    var luma := Clamp(m + (v.x - m) * sharpen, BLACK, LUMA_WHITE);
    Texel(luma, Clamp(v.y, BLACK, CHROMA_WHITE), Clamp(v.z, BLACK, CHROMA_WHITE), 1.0)
  }

  /** Luma ends at the legal value nearest to one whose distance from the mean of the two by two is
      `sharpen` times that of the pixel; chroma only becomes legal. */
  lemma SharpenScales(frame: Texture, x: int, y: int, sharpen: real, mean: real, target: real)
    requires mean - frame(x, y).x ==
      (frame(x + 1, y).x - mean) + (frame(x + 1, y + 1).x - mean) + (frame(x, y + 1).x - mean)
    requires target - mean == sharpen * (frame(x, y).x - mean)
    ensures var v, r := frame(x, y), SharpenFrame(frame, x, y, sharpen);
      && Nearest(r.x, target, BLACK, LUMA_WHITE) && r.w == 1.0
      && Nearest(r.y, v.y, BLACK, CHROMA_WHITE) && Nearest(r.z, v.z, BLACK, CHROMA_WHITE)
  {
    assert (frame(x, y).x - mean) * sharpen == sharpen * (frame(x, y).x - mean);
  }

  // ----- contrast_frame -----

  function ContrastFrame(v: Texel, luma: real, chroma: real): Texel {
    Texel(Clamp((v.x - 0.5) * luma + 0.5, BLACK, LUMA_WHITE),
          Clamp((v.y - 0.5) * chroma + 0.5, BLACK, CHROMA_WHITE),
          Clamp((v.z - 0.5) * chroma + 0.5, BLACK, CHROMA_WHITE), 1.0)
  }

  /** Distances from grey are scaled, and the result made legal; at contrast 1 that is all. */
  lemma ContrastScales(v: Texel, luma: real, chroma: real, target: Texel)
    requires target.x - 0.5 == luma * (v.x - 0.5)
    requires target.y - 0.5 == chroma * (v.y - 0.5) && target.z - 0.5 == chroma * (v.z - 0.5)
    ensures var r := ContrastFrame(v, luma, chroma);
      && Nearest(r.x, target.x, BLACK, LUMA_WHITE) && r.w == 1.0
      && Nearest(r.y, target.y, BLACK, CHROMA_WHITE) && Nearest(r.z, target.z, BLACK, CHROMA_WHITE)
  {
  }

  // ----- Contrast of a block -----

  function DiffFrame(a: Texel, b: Texel): Texel {
    Texel(Abs(a.x - b.x), Abs(a.y - b.y), Abs(a.z - b.z), 1.0)
  }

  /** In how many of its parts a pixel differs by the threshold or more. */
  function ThreshDiff(v: Texel, threshold: real): Texel {
    var n := Step(threshold, v.x) + Step(threshold, v.y) + Step(threshold, v.z);
    Texel(n, n, n, 1.0)
  }

  /** The mean of four texels. */
  function DecimateAdd(frame: Texture, x: int, y: int): Texel {
    var sum := frame(2 * x, 2 * y).x + frame(2 * x + 1, 2 * y).x
             + frame(2 * x, 2 * y + 1).x + frame(2 * x + 1, 2 * y + 1).x;
    var m := sum / 4.0;
    Texel(m, m, m, 1.0)
  }

  // ----- Motion vectors -----

  const UNSET := Texel(0.0, 0.0, 0.0, 0.0)

  /** Difference of two pixels. */
  function Difference(a: Texel, b: Texel): (d: real)
    ensures d >= 0.0
  {
    Abs(a.x - b.x) + Abs(a.y - b.y) + Abs(a.z - b.z)
  }

  /** All three parts count, each by its own distance: the difference is what going from a to b one
      part after the other adds up to, and zero only where no part differs. */
  lemma DifferenceCountsParts(a: Texel, b: Texel)
    ensures Difference(a, b) == 0.0 <==> a.x == b.x && a.y == b.y && a.z == b.z
    ensures a.y == b.y && a.z == b.z ==> Difference(a, b) == Abs(a.x - b.x)
    ensures a.x == b.x && a.z == b.z ==> Difference(a, b) == Abs(a.y - b.y)
    ensures a.x == b.x && a.y == b.y ==> Difference(a, b) == Abs(a.z - b.z)
    ensures var p, q := a.(x := b.x), a.(x := b.x, y := b.y);
      Difference(a, b) == Difference(a, p) + Difference(p, q) + Difference(q, b)
  {
  }

  /** One accumulation step of SAD at (x, y). */
  function Sad(frameA: Texture, frameB: Texture, accum: Texture, x: int, y: int,
               offset: (int, int), offset2: (int, int), weight: (int, int)): Texel
  {
    var nx, ny := x + offset2.0, y + offset2.1;
    var sad := Difference(frameA(nx + offset.0, ny + offset.1), frameB(nx, ny));
    var weighted := sad + (weight.0 * weight.0) as real + (weight.1 * weight.1) as real;
    Texel(offset.0 as real, offset.1 as real, weighted + accum(x, y).z, 1.0)
  }

  /** One accumulation step of SAD_pass2: twice the vector v and an offset away. */
  function SadPass2(frameA: Texture, frameB: Texture, v: Texel, accum: Texel, x: int, y: int,
                    offset: (int, int), offset2: (int, int)): Texel
  {
    var nx, ny := v.x * 2.0 + offset.0 as real, v.y * 2.0 + offset.1 as real;
    var i, j := x + offset2.0, y + offset2.1;
    Texel(nx, ny, Difference(frameA(i + TexelAt(nx), j + TexelAt(ny)), frameB(i, j)) + accum.z, 1.0)
  }

  /** One accumulation step of SAD_halfpel: half-way between twice the vector and an offset from there. */
  function SadHalfpel(frameA: Texture, frameB: Texture, v: Texel, accum: Texel, x: int, y: int,
                      offset: (int, int), offset2: (int, int)): Texel
  {
    var nx, ny := v.x * 2.0, v.y * 2.0;
    var mx, my := nx + offset.0 as real, ny + offset.1 as real;
    var i, j := x + offset2.0, y + offset2.1;
    var between := MeanOf(frameB(i + TexelAt(nx), j + TexelAt(ny)), frameB(i + TexelAt(mx), j + TexelAt(my)));
    Texel(mx, my, Difference(between, frameA(i, j)) + accum.z, 1.0)
  }

  /** Adds up the costs of four texels, and keeps the vector of the first. */
  function DecimateAddVector(frame: Texture, x: int, y: int): Texel {
    var sum := frame(2 * x, 2 * y).z + frame(2 * x + 1, 2 * y).z
             + frame(2 * x, 2 * y + 1).z + frame(2 * x + 1, 2 * y + 1).z;
    frame(2 * x, 2 * y).(z := sum)
  }

  function VectorUpdate(old_: Texel, new_: Texel): Texel {
    if old_.w == 0.0 || Abs(new_.z) <= old_.z then new_ else old_
  }

  /** 1 for a block whose cost is too high. */
  function VectorBadcheck(v: Texel, threshold: real): Texel {
    var bad := Step(threshold, v.z);
    Texel(bad, bad, bad, 1.0)
  }

  /** A vector that leads out of the picture is dropped; its cost stays. */
  function VectorRange(v: Texel, x: int, y: int, width: int, height: int): Texel {
    var toX, toY := v.x + (8 * x) as real, v.y + (8 * y) as real;
    if toX < 0.0 || toX > width as real || toY < 32.0 || toY > (height + 32) as real then v.(x := 0.0, y := 0.0) else v
  }

  /** The place a block's vector leads to, as far as this shader asks. */
  predicate LeadsInside(v: Texel, x: int, y: int, width: int, height: int) {
    0.0 <= v.x + (8 * x) as real <= width as real && 32.0 <= v.y + (8 * y) as real <= (height + 32) as real
  }

  /** Just the vectors that lead outside are dropped, and those of blocks that are themselves inside
      lead inside afterwards. */
  lemma VectorRangeStaysInside(v: Texel, x: int, y: int, width: int, height: int)
    ensures var r := VectorRange(v, x, y, width, height);
      && r.z == v.z && r.w == v.w
      && (LeadsInside(v, x, y, width, height) ==> r == v)
      && (!LeadsInside(v, x, y, width, height) ==> r.x == 0.0 && r.y == 0.0)
      && (0 <= 8 * x <= width && 32 <= 8 * y <= height + 32 ==> LeadsInside(r, x, y, width, height))
  {
  }

  /** Blocks with little contrast start with cost 0 and the mark set. */
  function VectorLowContrast(value: real, threshold: real): Texel {
    if value <= threshold then Texel(0.0, 0.0, 0.0, 1.0) else Texel(0.0, 0.0, 10000.0, 0.0)
  }
}
