/** What the denoiser does to whole clips: its steps, frame after frame. */
module Clips {
  import opened CoarseSearch
  import opened Denoise
  import opened FineSearch
  import opened Gpu
  import opened MotionSearch
  import opened Shaders
  import opened Sums

  // ----- One pixel -----

  predicate PartsAveraged(mean': Texel, v: Texel, mean: Texel, s: Settings) {
    && PartAveraged(mean'.x, v.x, mean.x, s.delay, s.correctThresh)
    && PartAveraged(mean'.y, v.y, mean.y, s.delay, s.correctThresh)
    && PartAveraged(mean'.z, v.z, mean.z, s.delay, s.correctThresh)
    && mean'.w == 1.0
  }

  /** Where the average is not moved, it divides the way from what it was to the frame as 1 : delay,
      but is corrected towards the frame. */
  lemma StillPixelMixes(b: Pictures, a: Pictures, input: Texture, shown: Texture, s: Settings, g: Textures,
                        x: int, y: int)
    requires Sane(s) && FrameStep(b, a, input, shown, s, g) && !b.restart
    requires 0 <= x < g.width && 0 <= y < g.padHeight
    requires VectorAt(a.vectors, 8, x, y).x == 0.0 && VectorAt(a.vectors, 8, x, y).y == 0.0
    ensures PartsAveraged(a.avg(x, y), Adjusted(input, s)(x, y), b.avg(x, y), s)
  {
    var w, h, ref := g.width, g.padHeight, Adjusted(input, s);
    var moved := MoveShade(b.avg, a.vectors, w, h);
    assert ClampInt(x, 0, w - 1) == x && ClampInt(y, 0, h - 1) == y;
    MoveStays(Clamped(b.avg, w, h), VectorAt(a.vectors, 8, x, y), x, y, b.avg(x, y));
    assert MixedAt(a.avg(x, y), a.soft(x, y), ref(x, y), moved(x, y), b.out(x, y), s);
    MixedParts(a.avg(x, y), a.soft(x, y), ref(x, y), moved(x, y), b.out(x, y), s);
  }

  // ----- New scenes -----

  /** A frame that differs visibly from the average nowhere never announces a new scene. */
  lemma QuietAnnouncesNothing(b: Pictures, a: Pictures, input: Texture, shown: Texture, s: Settings, g: Textures)
    requires Sane(s) && FrameStep(b, a, input, shown, s, g)
    requires EightFold(g) && s.radius > -4 && s.blockBadThresh > 0.0
    requires g.width > 0 && g.height > 0 && Counted(g).exact
    requires forall x, y | 0 <= x < g.vecWidth && 0 <= y < g.vecHeight ::
      LowContrast(Adjusted(input, s), Resumed(b.avg, b.restart, input), s.contrastThresh, x, y)
    ensures !a.restart
  {
    var f, n := BadBlocks(a.vectors, s.blockBadThresh), Counted(g).n;
    SquareIsInside(g);
    forall x, y | 0 <= x < n && 0 <= y < n ensures f(x, y) == 0.0 {
      assert LowContrast(Adjusted(input, s), Resumed(b.avg, b.restart, input), s.contrastThresh, x, y);
      assert a.vectors(x, y).z == 0.0;
    }
    BadIsZeroOrOne(a.vectors, s.blockBadThresh);
    BlockIsZeroIff(f, 0, 0, n, n);
    assert ZeroIn(f, 0, 0, n, n);
    MostBadIsNat(s, g);
  }

  lemma BadIsZeroOrOne(vectors: Texture, threshold: real)
    ensures forall x, y :: BadBlocks(vectors, threshold)(x, y) >= 0.0
  {
    forall x, y ensures BadBlocks(vectors, threshold)(x, y) >= 0.0 {
      assert BadBlocks(vectors, threshold)(x, y) == Step(threshold, vectors(x, y).z);
    }
  }

  lemma MostBadIsNat(s: Settings, g: Textures)
    requires g.width > 0 && g.height > 0
    ensures MostBad(s, g) >= 0
  {
    assert g.width * g.height > 0;
    assert g.width * g.height * s.sceneThresh >= 0;
  }

  // ----- Flat pictures -----

  ghost predicate Flat(t: Texture, v: Texel, w: int, h: int) {
    forall x, y | 0 <= x < w && 0 <= y < h :: t(x, y) == v
  }

  /** The nearest texel that may be shown. */
  predicate Legal(r: Texel, v: Texel) {
    && Nearest(r.x, v.x, BLACK, LUMA_WHITE) && r.w == 1.0
    && Nearest(r.y, v.y, BLACK, CHROMA_WHITE) && Nearest(r.z, v.z, BLACK, CHROMA_WHITE)
  }

  /** Flat pictures stay flat, wherever the vectors lead; what is shown is the mix, made legal. */
  lemma FlatStep(b: Pictures, a: Pictures, input: Texture, shown: Texture, s: Settings, g: Textures,
                 v: Texel, mean: Texel, last: Texel)
    returns (mean': Texel, soft: Texel, last': Texel)
    requires Sane(s) && g.width > 0 && g.padHeight > 0 && FrameStep(b, a, input, shown, s, g) && mean.w == 1.0
    requires Flat(Adjusted(input, s), v, g.width, g.padHeight)
    requires Flat(Resumed(b.avg, b.restart, input), mean, g.width, g.padHeight)
    requires Flat(Resumed(b.out, b.restart, input), last, g.width, g.padHeight)
    ensures MixedAt(mean', soft, v, mean, last, s) && Legal(last', soft)
    ensures Flat(a.avg, mean', g.width, g.padHeight) && Flat(a.soft, soft, g.width, g.padHeight)
    ensures Flat(a.out, last', g.width, g.padHeight) && Flat(shown, last', g.width, g.padHeight)
  {
    mean' := CorrectFrame2(v, AverageFrame(mean, v, s.delay as real), s.correctThresh);
    soft := DenoisePass2(mean', last, s.ppThresh);
    last' := SharpenFrame((x: int, y: int) => soft, 0, 0, s.sharpen);
    FlatMixes(b, a, input, shown, s, g, v, mean, last, mean', soft);
    FlatSharpens(a, shown, s, g.width, g.padHeight, soft, last');
  }

  lemma FlatMixes(b: Pictures, a: Pictures, input: Texture, shown: Texture, s: Settings, g: Textures,
                  v: Texel, mean: Texel, last: Texel, mean': Texel, soft: Texel)
    requires Sane(s) && g.width > 0 && g.padHeight > 0 && FrameStep(b, a, input, shown, s, g) && mean.w == 1.0
    requires Flat(Adjusted(input, s), v, g.width, g.padHeight)
    requires Flat(Resumed(b.avg, b.restart, input), mean, g.width, g.padHeight)
    requires Flat(Resumed(b.out, b.restart, input), last, g.width, g.padHeight)
    requires MixedAt(mean', soft, v, mean, last, s)
    ensures Flat(a.avg, mean', g.width, g.padHeight) && Flat(a.soft, soft, g.width, g.padHeight)
  {
    var w, h, ref := g.width, g.padHeight, Adjusted(input, s);
    var avg, previous := Resumed(b.avg, b.restart, input), Resumed(b.out, b.restart, input);
    var moved := MoveShade(avg, a.vectors, w, h);
    forall x, y | 0 <= x < w && 0 <= y < h ensures a.avg(x, y) == mean' && a.soft(x, y) == soft {
      FlatMoves(avg, mean, a.vectors, w, h, x, y);
      assert MixedAt(a.avg(x, y), a.soft(x, y), ref(x, y), moved(x, y), previous(x, y), s);
    }
  }

  lemma FlatClamps(t: Texture, v: Texel, w: int, h: int)
    requires w > 0 && h > 0 && Flat(t, v, w, h)
    ensures forall x, y :: Clamped(t, w, h)(x, y) == v
  {
    forall x, y ensures Clamped(t, w, h)(x, y) == v {
      assert 0 <= ClampInt(x, 0, w - 1) < w && 0 <= ClampInt(y, 0, h - 1) < h;
    }
  }

  lemma FlatMoves(avg: Texture, mean: Texel, vectors: Texture, w: int, h: int, x: int, y: int)
    requires w > 0 && h > 0 && Flat(avg, mean, w, h) && mean.w == 1.0
    ensures MoveShade(avg, vectors, w, h)(x, y) == mean
  {
    FlatClamps(avg, mean, w, h);
    MoveStays(Clamped(avg, w, h), VectorAt(vectors, 8, x, y), x, y, mean);
  }

  lemma FlatSharpens(a: Pictures, shown: Texture, s: Settings, w: int, h: int, soft: Texel, last': Texel)
    requires w > 0 && h > 0 && Flat(a.soft, soft, w, h)
    requires Shows(a.out, SharpenShade(Clamped(a.soft, w, h), s.sharpen), w, h) && Shows(shown, CopyShade(a.out), w, h)
    requires last' == SharpenFrame((x: int, y: int) => soft, 0, 0, s.sharpen)
    ensures Flat(a.out, last', w, h) && Flat(shown, last', w, h) && Legal(last', soft)
  {
    var same := (x: int, y: int) => soft;
    SharpenScales(same, 0, 0, s.sharpen, soft.x, soft.x);
    FlatClamps(a.soft, soft, w, h);
    forall x, y | 0 <= x < w && 0 <= y < h ensures a.out(x, y) == last' && shown(x, y) == last' {
      assert a.out(x, y) == SharpenFrame(Clamped(a.soft, w, h), x, y, s.sharpen);
    }
  }

  // ----- A step from one flat picture to another -----

  /** What is left of a difference after k frames. */
  function Left(delay: nat, k: nat): (r: real)
    ensures 0.0 <= r <= 1.0
  {
    if k == 0 then 1.0 else Shrink(Left(delay, k - 1), delay)
  }

  function Shrink(d: real, delay: nat): (r: real)
    ensures r * (delay as real + 1.0) == d * delay as real
    ensures d >= 0.0 ==> 0.0 <= r <= d
  {
    var r := d * delay as real / (delay as real + 1.0);
    Ratio(r, d * delay as real, delay as real + 1.0, 0.0);
    Ratio(r, d * delay as real, delay as real + 1.0, d);
    r
  }

  /** The average after k frames v that started from `start`. */
  function Approach(v: Texel, start: Texel, delay: nat, k: nat): Texel {
    var left := Left(delay, k);
    Texel(Lerp(v.x, start.x, left), Lerp(v.y, start.y, left), Lerp(v.z, start.z, left), 1.0)
  }

  /** The first average is not corrected towards the frame. */
  predicate Gentle(v: real, start: real, s: Settings) {
    s.delay as real * Abs(v - start) <= (s.delay as real + 1.0) * s.correctThresh
  }

  predicate GentleParts(v: Texel, start: Texel, s: Settings) {
    Gentle(v.x, start.x, s) && Gentle(v.y, start.y, s) && Gentle(v.z, start.z, s)
  }

  lemma PartApproaches(avg': real, v: real, start: real, s: Settings, k: nat)
    requires Sane(s) && Gentle(v, start, s)
    requires PartAveraged(avg', v, Lerp(v, start, Left(s.delay, k)), s.delay, s.correctThresh)
    ensures avg' == Lerp(v, start, Left(s.delay, k + 1))
  {
    MeanIsClose(v, start, s, k);
    PartIsMean(avg', v, Lerp(v, start, Left(s.delay, k)), s.delay, s.correctThresh);
  }

  lemma PartIsMean(avg': real, ref: real, avg: real, delay: nat, threshold: real)
    requires PartAveraged(avg', ref, avg, delay, threshold)
    requires Abs(ref - Average(avg, ref, delay as real)) <= threshold
    ensures avg' == Average(avg, ref, delay as real)
  {
  }

  lemma MeanIsClose(v: real, start: real, s: Settings, k: nat)
    requires Sane(s) && Gentle(v, start, s)
    ensures var mean := Average(Lerp(v, start, Left(s.delay, k)), v, s.delay as real);
      mean == Lerp(v, start, Left(s.delay, k + 1)) && Abs(v - mean) <= s.correctThresh
  {
    var left := Left(s.delay, k);
    NextMean(v, start, left, Shrink(left, s.delay), s.delay as real, s.correctThresh);
  }

  lemma NextMean(v: real, start: real, left: real, left': real, delay: real, threshold: real)
    requires delay >= 0.0 && 0.0 <= left' && left' * (delay + 1.0) == left * delay && 0.0 <= left <= 1.0
    requires delay * Abs(v - start) <= (delay + 1.0) * threshold
    ensures Average(Lerp(v, start, left), v, delay) == Lerp(v, start, left')
    ensures Abs(v - Lerp(v, start, left')) <= threshold
  {
    MeanShrinks(v, start, left, left', delay);
    LerpIsClose(v, start, left, left', delay, threshold);
  }

  lemma MeanShrinks(v: real, start: real, left: real, left': real, delay: real)
    requires delay >= 0.0 && left' * (delay + 1.0) == left * delay
    ensures Average(Lerp(v, start, left), v, delay) == Lerp(v, start, left')
  {
    var d := start - v;
    var avg, mean := v + left * d, v + left' * d;
    assert (left' * d) * (delay + 1.0) == (left' * (delay + 1.0)) * d == (left * delay) * d;
    assert mean * (delay + 1.0) == avg * delay + v;
    assert (mean * (delay + 1.0)) / (delay + 1.0) == mean;
  }

  lemma LerpIsClose(v: real, start: real, left: real, left': real, delay: real, threshold: real)
    requires delay >= 0.0 && 0.0 <= left' && left' * (delay + 1.0) == left * delay && 0.0 <= left <= 1.0
    requires delay * Abs(v - start) <= (delay + 1.0) * threshold
    ensures Abs(v - Lerp(v, start, left')) <= threshold
  {
    var q := Abs(start - v);
    AbsScales(left', start - v);
    LessLeft(left', left, delay, q, threshold);
  }

  /** The distance is no more than what the first mean leaves. */
  lemma LessLeft(left': real, left: real, n: real, q: real, threshold: real)
    requires n >= 0.0 && q >= 0.0 && left' * (n + 1.0) == left * n && 0.0 <= left <= 1.0
    requires n * q <= (n + 1.0) * threshold
    ensures left' * q <= threshold
  {
    assert (left' * q) * (n + 1.0) == (left' * (n + 1.0)) * q == left * (n * q);
    ProductSign(n, q);
    ProductSign(1.0 - left, n * q);
    assert (1.0 - left) * (n * q) == n * q - left * (n * q);
    Ratio(left' * q, (left' * q) * (n + 1.0), n + 1.0, threshold);
  }

  lemma AbsScales(left: real, d: real)
    requires left >= 0.0
    ensures Abs(left * d) == left * Abs(d)
  {
    ProductSign(left, Abs(d));
    assert left * -d == -(left * d);
  }

  lemma AveragedStep(b: Pictures, a: Pictures, input: Texture, shown: Texture, s: Settings, g: Textures,
                     v: Texel, mean: Texel, last: Texel)
    returns (mean': Texel, last': Texel)
    requires Sane(s) && g.width > 0 && g.padHeight > 0 && FrameStep(b, a, input, shown, s, g) && !b.restart
    requires Flat(Adjusted(input, s), v, g.width, g.padHeight) && Flat(b.out, last, g.width, g.padHeight)
    requires Flat(b.avg, mean, g.width, g.padHeight) && mean.w == 1.0
    ensures PartsAveraged(mean', v, mean, s) && Flat(a.avg, mean', g.width, g.padHeight)
    ensures Flat(a.out, last', g.width, g.padHeight)
  {
    var soft;
    mean', soft, last' := FlatStep(b, a, input, shown, s, g, v, mean, last);
    MixedParts(mean', soft, v, mean, last, s);
  }

  lemma PartsApproach(mean': Texel, v: Texel, start: Texel, s: Settings, k: nat)
    requires Sane(s) && GentleParts(v, start, s)
    requires PartsAveraged(mean', v, Approach(v, start, s.delay, k), s)
    ensures mean' == Approach(v, start, s.delay, k + 1)
  {
    PartApproaches(mean'.x, v.x, start.x, s, k);
    PartApproaches(mean'.y, v.y, start.y, s, k);
    PartApproaches(mean'.z, v.z, start.z, s, k);
  }

  /** One frame of it. */
  lemma FlatFrame(b: Pictures, a: Pictures, input: Texture, shown: Texture, s: Settings, g: Textures,
                  v: Texel, start: Texel, last: Texel, k: nat)
    returns (last': Texel)
    requires Sane(s) && g.width > 0 && g.padHeight > 0 && FrameStep(b, a, input, shown, s, g) && !b.restart
    requires Flat(Adjusted(input, s), v, g.width, g.padHeight) && Flat(b.out, last, g.width, g.padHeight)
    requires Flat(b.avg, Approach(v, start, s.delay, k), g.width, g.padHeight) && GentleParts(v, start, s)
    ensures Flat(a.avg, Approach(v, start, s.delay, k + 1), g.width, g.padHeight)
    ensures Flat(a.out, last', g.width, g.padHeight)
  {
    var mean := Approach(v, start, s.delay, k);
    var mean';
    mean', last' := AveragedStep(b, a, input, shown, s, g, v, mean, last);
    PartsApproach(mean', v, start, s, k);
  }

  /** The clip shows one flat picture, and before it there was another. */
  ghost predicate FlatCut(trace: seq<Pictures>, clip: seq<Texture>, shown: seq<Texture>, s: Settings, g: Textures,
                          v: Texel, start: Texel, last: Texel)
  {
    && Sane(s) && g.width > 0 && g.height > 0 && Chain(trace, clip, shown, s, g)
    && (forall j | 0 <= j < |clip| :: Flat(Adjusted(clip[j], s), v, g.width, g.padHeight))
    && Flat(trace[0].avg, start, g.width, g.padHeight) && Flat(trace[0].out, last, g.width, g.padHeight)
    && start.w == 1.0
  }

  lemma StepOf(trace: seq<Pictures>, clip: seq<Texture>, shown: seq<Texture>, s: Settings, g: Textures, k: nat)
    requires Sane(s) && Chain(trace, clip, shown, s, g) && k < |clip|
    ensures FrameStep(trace[k], trace[k + 1], clip[k], shown[k], s, g)
  {
    assert StepAt(trace, clip, shown, s, g, k);
  }

  /** After a change from one flat picture to another, what is left of the difference shrinks by
      delay / (delay + 1) with each frame, as long as no new scene is announced. */
  lemma {:induction false} FlatApproaches(trace: seq<Pictures>, clip: seq<Texture>, shown: seq<Texture>, s: Settings,
                                          g: Textures, v: Texel, start: Texel, last: Texel, k: nat)
    returns (last': Texel)
    requires FlatCut(trace, clip, shown, s, g, v, start, last) && GentleParts(v, start, s) && k <= |clip|
    requires forall j | 0 <= j < k :: !trace[j].restart
    ensures Flat(trace[k].avg, Approach(v, start, s.delay, k), g.width, g.padHeight)
    ensures Flat(trace[k].out, last', g.width, g.padHeight)
  {
    if k == 0 {
      ApproachStarts(v, start, s.delay);
      last' := last;
    } else {
      var i := k - 1;
      var before := FlatApproaches(trace, clip, shown, s, g, v, start, last, i);
      StepOf(trace, clip, shown, s, g, i);
      last' := FlatFrame(trace[i], trace[k], clip[i], shown[i], s, g, v, start, before, i);
    }
  }

  lemma ApproachStarts(v: Texel, start: Texel, delay: nat)
    requires start.w == 1.0
    ensures Approach(v, start, delay, 0) == start
  {
  }

  /** In frame j the pixel shows v, and the vector read for it is zero. */
  ghost predicate StillAt(trace: seq<Pictures>, clip: seq<Texture>, s: Settings, x: int, y: int, v: Texel, j: nat)
    requires |trace| == |clip| + 1 && j < |clip|
  {
    var vector := VectorAt(trace[j + 1].vectors, 8, x, y);
    !trace[j].restart && Adjusted(clip[j], s)(x, y) == v && vector.x == 0.0 && vector.y == 0.0
  }

  /** The same for one pixel of any pictures: as long as it shows v and is not moved, what is left of its
      difference shrinks by delay / (delay + 1) with each frame. */
  lemma {:induction false} PixelApproaches(trace: seq<Pictures>, clip: seq<Texture>, shown: seq<Texture>, s: Settings,
                                           g: Textures, x: int, y: int, v: Texel, start: Texel, k: nat)
    requires Sane(s) && Chain(trace, clip, shown, s, g) && k <= |clip| && 0 <= x < g.width && 0 <= y < g.padHeight
    requires forall j | 0 <= j < k :: StillAt(trace, clip, s, x, y, v, j)
    requires trace[0].avg(x, y) == start && start.w == 1.0 && GentleParts(v, start, s)
    ensures trace[k].avg(x, y) == Approach(v, start, s.delay, k)
  {
    if k == 0 {
      ApproachStarts(v, start, s.delay);
    } else {
      var i := k - 1;
      PixelApproaches(trace, clip, shown, s, g, x, y, v, start, i);
      StepOf(trace, clip, shown, s, g, i);
      assert StillAt(trace, clip, s, x, y, v, i);
      StillPixelMixes(trace[i], trace[k], clip[i], shown[i], s, g, x, y);
      PartsApproach(trace[k].avg(x, y), v, start, s, i);
    }
  }

  // ----- No new scene on the way -----

  lemma FlatIsQuiet(ref: Texture, v: Texel, avg: Texture, mean: Texel, threshold: real, g: Textures, x: int, y: int)
    requires EightFold(g) && 0 <= x < g.vecWidth && 0 <= y < g.vecHeight
    requires Flat(ref, v, g.width, g.padHeight) && Flat(avg, mean, g.width, g.padHeight)
    requires Invisible(DiffFrame(v, mean), threshold)
    ensures LowContrast(ref, avg, threshold, x, y)
  {
    EightFoldSizes(g);
  }

  lemma ApproachStaysClose(v: Texel, start: Texel, delay: nat, k: nat, threshold: real)
    requires Invisible(DiffFrame(v, start), threshold)
    ensures Invisible(DiffFrame(v, Approach(v, start, delay, k)), threshold)
  {
    PartStaysClose(v.x, start.x, Left(delay, k));
    PartStaysClose(v.y, start.y, Left(delay, k));
    PartStaysClose(v.z, start.z, Left(delay, k));
  }

  lemma PartStaysClose(v: real, start: real, left: real)
    requires 0.0 <= left <= 1.0
    ensures Abs(v - Lerp(v, start, left)) <= Abs(v - start)
  {
    var d := start - v;
    AbsScales(left, d);
    ProductSign(1.0 - left, Abs(d));
    assert (1.0 - left) * Abs(d) == Abs(d) - left * Abs(d);
  }

  lemma {:induction false} NoRestart(trace: seq<Pictures>, clip: seq<Texture>, shown: seq<Texture>, s: Settings,
                                     g: Textures, v: Texel, start: Texel, last: Texel, k: nat)
    returns (last': Texel)
    requires FlatCut(trace, clip, shown, s, g, v, start, last) && GentleParts(v, start, s) && k <= |clip|
    requires EightFold(g) && Counted(g).exact && s.radius > -4 && s.blockBadThresh > 0.0 && !trace[0].restart
    requires Invisible(DiffFrame(v, start), s.contrastThresh)
    ensures !trace[k].restart && Flat(trace[k].avg, Approach(v, start, s.delay, k), g.width, g.padHeight)
    ensures Flat(trace[k].out, last', g.width, g.padHeight)
  {
    if k == 0 {
      ApproachStarts(v, start, s.delay);
      last' := last;
    } else {
      var i := k - 1;
      var before := NoRestart(trace, clip, shown, s, g, v, start, last, i);
      StepOf(trace, clip, shown, s, g, i);
      ApproachIsQuiet(trace[i], trace[k], clip[i], shown[i], s, g, v, start, i);
      last' := FlatFrame(trace[i], trace[k], clip[i], shown[i], s, g, v, start, before, i);
    }
  }

  /** A flat picture that differs invisibly from the average: no new scene is ever announced, and the
      average approaches it by the factor delay / (delay + 1) at every frame of the clip. */
  lemma FlatClip(trace: seq<Pictures>, clip: seq<Texture>, shown: seq<Texture>, s: Settings, g: Textures,
                 v: Texel, start: Texel, last: Texel)
    requires FlatCut(trace, clip, shown, s, g, v, start, last) && GentleParts(v, start, s)
    requires EightFold(g) && Counted(g).exact && s.radius > -4 && s.blockBadThresh > 0.0 && !trace[0].restart
    requires Invisible(DiffFrame(v, start), s.contrastThresh)
    ensures forall k | 0 <= k <= |clip| ::
      !trace[k].restart && Flat(trace[k].avg, Approach(v, start, s.delay, k), g.width, g.padHeight)
  {
    forall k | 0 <= k <= |clip|
      ensures !trace[k].restart && Flat(trace[k].avg, Approach(v, start, s.delay, k), g.width, g.padHeight)
    {
      var _ := NoRestart(trace, clip, shown, s, g, v, start, last, k);
    }
  }

  lemma ApproachIsQuiet(b: Pictures, a: Pictures, input: Texture, shown: Texture, s: Settings, g: Textures,
                        v: Texel, start: Texel, k: nat)
    requires Sane(s) && g.width > 0 && g.height > 0 && FrameStep(b, a, input, shown, s, g) && !b.restart
    requires EightFold(g) && Counted(g).exact && s.radius > -4 && s.blockBadThresh > 0.0
    requires Flat(Adjusted(input, s), v, g.width, g.padHeight)
    requires Flat(b.avg, Approach(v, start, s.delay, k), g.width, g.padHeight)
    requires Invisible(DiffFrame(v, start), s.contrastThresh)
    ensures !a.restart
  {
    ApproachStaysClose(v, start, s.delay, k, s.contrastThresh);
    var ref, mean := Adjusted(input, s), Approach(v, start, s.delay, k);
    forall x, y | 0 <= x < g.vecWidth && 0 <= y < g.vecHeight
      ensures LowContrast(ref, b.avg, s.contrastThresh, x, y)
    {
      FlatIsQuiet(ref, v, b.avg, mean, s.contrastThresh, g, x, y);
    }
    QuietAnnouncesNothing(b, a, input, shown, s, g);
  }
}
