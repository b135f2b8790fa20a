/** One frame through the denoiser of src/cg_interface.c, and whole clips. */
module Denoise {
  import opened CoarseSearch
  import opened FineSearch
  import opened Gpu
  import opened MotionSearch
  import opened Shaders
  import opened Sums

  // ----- Stages that make the output -----

  function ContrastShade(t: Texture, luma: real, chroma: real): Texture {
    (x: int, y: int) => ContrastFrame(t(x, y), luma, chroma)
  }

  function AverageShade(ref: Texture, avg: Texture, delay: nat): Texture {
    (x: int, y: int) => AverageFrame(avg(x, y), ref(x, y), delay as real)
  }

  function CorrectShade(ref: Texture, avg: Texture, threshold: real): Texture
    requires threshold > 0.0
  {
    (x: int, y: int) => CorrectFrame2(ref(x, y), avg(x, y), threshold)
  }

  function Pass2Shade(avg: Texture, avg2: Texture, threshold: real): Texture
    requires threshold > 0.0
  {
    (x: int, y: int) => DenoisePass2(avg(x, y), avg2(x, y), threshold)
  }

  function SharpenShade(t: Texture, sharpen: real): Texture {
    (x: int, y: int) => SharpenFrame(t, x, y, sharpen)
  }

  /** copy_frame at one size. */
  method CopyFrame(g: Textures, target: Role, source: Role)
    requires g.Valid() && target != source && g.DimsOf(target) == (g.width, g.padHeight)
    modifies g`store, g`draws
    ensures g.Valid() && g.Only({target})
    ensures g.Held(target) == Painted(old(g.Held(target)), CopyShade(old(g.Held(source))), g.width, g.padHeight)
  {
    var shade := CopyShade(g.Held(source));
    g.Render(target, {source}, {}, shade, g.width, g.padHeight);
  }

  /** A stage that draws into the spare texture and hands it over as its result. */
  method Replace(g: Textures, target: Role, sources: set<Role>, shade: Texture)
    requires g.Valid() && Tmp !in sources && target != Tmp && g.DimsOf(target) == (g.width, g.padHeight)
    modifies g`id, g`owner, g`store, g`draws
    ensures g.Valid() && g.Only({target, Tmp})
    ensures Shows(g.Held(target), shade, g.width, g.padHeight)
  {
    g.Render(Tmp, {}, sources, shade, g.width, g.padHeight);
    ghost var picture := g.Held(Tmp);
    g.Swap(Tmp, target);
    assert g.Held(target) == picture;
  }

  ghost predicate Shows(t: Texture, shade: Texture, w: int, h: int) {
    forall x, y | 0 <= x < w && 0 <= y < h :: t(x, y) == shade(x, y)
  }

  /** What the frame is compared with: the input, its contrast adjusted. */
  function Adjusted(t: Texture, s: Settings): Texture {
    if s.lumaContrast == 1.0 && s.chromaContrast == 1.0 then CopyShade(t)
    else ContrastShade(CopyShade(t), s.lumaContrast, s.chromaContrast)
  }

  /** The distances from grey are those of the input, times the contrasts, and made legal; at contrasts
      of 1 the input is taken as it is. */
  lemma AdjustedScales(t: Texture, s: Settings, x: int, y: int, target: Texel)
    requires target.x - 0.5 == s.lumaContrast * (t(x, y).x - 0.5)
    requires target.y - 0.5 == s.chromaContrast * (t(x, y).y - 0.5)
    requires target.z - 0.5 == s.chromaContrast * (t(x, y).z - 0.5)
    ensures var r := Adjusted(t, s)(x, y);
      if s.lumaContrast == 1.0 && s.chromaContrast == 1.0 then r == t(x, y).(w := 1.0)
      else
        && Nearest(r.x, target.x, BLACK, LUMA_WHITE) && r.w == 1.0
        && Nearest(r.y, target.y, BLACK, CHROMA_WHITE) && Nearest(r.z, target.z, BLACK, CHROMA_WHITE)
  {
    ContrastScales(t(x, y).(w := 1.0), s.lumaContrast, s.chromaContrast, target);
  }

  /** Each output pixel before sharpening is within these bounds of the input pixel. */
  ghost predicate Near(t: Texture, input: Texture, s: Settings, w: int, h: int) {
    forall x, y | 0 <= x < w && 0 <= y < h :: NearAt(t(x, y), input(x, y), s)
  }

  predicate NearAt(a: Texel, b: Texel, s: Settings) {
    && Abs(a.x - b.x) <= s.correctThresh + s.ppThresh / 4.0
    && Abs(a.y - b.y) <= s.correctThresh + s.ppThresh
    && Abs(a.z - b.z) <= s.correctThresh + s.ppThresh
  }

  /** The bounds are those that can be reached, in all parts at once: no picture farther off by any e is
      near. */
  lemma NearIsTight(frame: Texel, s: Settings, e: real) returns (average: Texel, previous: Texel)
    requires Sane(s) && e > 0.0
    ensures var r := DenoisePass2(CorrectFrame2(frame, average, s.correctThresh), previous, s.ppThresh);
      && NearAt(r, frame, s)
      && !NearAt(r.(x := r.x + e), frame, s) && !NearAt(r.(y := r.y + e), frame, s)
      && !NearAt(r.(z := r.z + e), frame, s)
  {
    average, previous := ErrorBoundIsTight(frame, s.correctThresh, s.ppThresh);
    AtTheBounds(DenoisePass2(CorrectFrame2(frame, average, s.correctThresh), previous, s.ppThresh), frame, s, e);
  }

  lemma AtTheBounds(r: Texel, frame: Texel, s: Settings, e: real)
    requires Sane(s) && e > 0.0
    requires r.x - frame.x == s.correctThresh + s.ppThresh / 4.0
    requires r.y - frame.y == s.correctThresh + s.ppThresh && r.z - frame.z == s.correctThresh + s.ppThresh
    ensures NearAt(r, frame, s)
    ensures !NearAt(r.(x := r.x + e), frame, s) && !NearAt(r.(y := r.y + e), frame, s)
    ensures !NearAt(r.(z := r.z + e), frame, s)
  {
  }

  /** contrast_frame: gives up when there is nothing to adjust. */
  method AdjustContrast(g: Textures, s: Settings, ghost input: Texture)
    requires g.Valid() && Shows(g.Held(Ref), CopyShade(input), g.width, g.padHeight)
    modifies g`id, g`owner, g`store, g`draws
    ensures g.Valid() && g.Only({Ref, Tmp})
    ensures Shows(g.Held(Ref), Adjusted(input, s), g.width, g.padHeight)
  {
    if s.lumaContrast == 1.0 && s.chromaContrast == 1.0 {
      return;
    }
    var shade := ContrastShade(g.Held(Ref), s.lumaContrast, s.chromaContrast);
    Replace(g, Ref, {Ref}, shade);
  }

  /** copy_frame from a w by h picture to one of half the size. */
  function DecimatedShade(t: Texture, w: int, h: int): Texture
    requires w > 0 && h > 0
  {
    (x: int, y: int) => t(Scaled(x, w, Half(w)), Scaled(y, h, Half(h))).(w := 1.0)
  }

  /** Of each two by two texels, the last one is left. */
  ghost predicate Thinned(small: Texture, t: Texture, w: int, h: int) {
    forall x, y | 0 <= x < w && 0 <= y < h :: small(x, y) == t(2 * x + 1, 2 * y + 1).(w := 1.0)
  }

  /** Of each four by four texels, the last one is left. */
  ghost predicate ThinnedByFour(small: Texture, t: Texture, w: int, h: int) {
    forall x, y | 0 <= x < w && 0 <= y < h :: small(x, y) == t(4 * x + 3, 4 * y + 3).(w := 1.0)
  }

  method DecimateFrame(g: Textures, target: Role, source: Role, w: int, h: int)
    requires g.Valid() && target != source && w > 0 && h > 0 && g.DimsOf(target) == (Half(w), Half(h))
    modifies g`store, g`draws
    ensures g.Valid() && g.Only({target})
    ensures w % 2 == 0 && h % 2 == 0 ==> Thinned(g.Held(target), old(g.Held(source)), w / 2, h / 2)
  {
    ghost var before, picture := g.Held(target), g.Held(source);
    var shade := DecimatedShade(g.Held(source), w, h);
    g.Render(target, {source}, {}, shade, Half(w), Half(h));
    if w % 2 == 0 && h % 2 == 0 {
      assert Half(w) == w / 2 && Half(h) == h / 2;
      DecimatedIsThinned(g.Held(target), before, picture, w / 2, h / 2);
    }
  }

  lemma DecimatedIsThinned(small: Texture, before: Texture, t: Texture, w: int, h: int)
    requires w > 0 && h > 0 && small == Painted(before, DecimatedShade(t, 2 * w, 2 * h), w, h)
    ensures Thinned(small, t, w, h)
  {
    assert Half(2 * w) == w && Half(2 * h) == h;
    forall x, y | 0 <= x < w && 0 <= y < h ensures small(x, y) == t(2 * x + 1, 2 * y + 1).(w := 1.0) {
      ScaledByHalf(x, w);
      ScaledByHalf(y, h);
    }
  }

  lemma ThinnedTwice(quarter: Texture, half: Texture, t: Texture, w: int, h: int)
    requires Thinned(half, t, 2 * w, 2 * h) && Thinned(quarter, half, w, h)
    ensures ThinnedByFour(quarter, t, w, h)
  {
    forall x, y | 0 <= x < w && 0 <= y < h ensures quarter(x, y) == t(4 * x + 3, 4 * y + 3).(w := 1.0) {
      var i, j := 2 * x + 1, 2 * y + 1;
      assert half(i, j) == t(2 * i + 1, 2 * j + 1).(w := 1.0);
    }
  }

  /** The first two calls of decimate_frame, or the last two. */
  method DecimateBoth(g: Textures, ref': Role, avg': Role, ref: Role, avg: Role, w: int, h: int)
    requires g.Valid() && w > 0 && h > 0 && ref' != ref && avg' != avg && ref' != avg && ref' != avg'
    requires g.DimsOf(ref') == g.DimsOf(avg') == (Half(w), Half(h))
    modifies g`store, g`draws
    ensures g.Valid() && g.Only({ref', avg'})
    ensures w % 2 == 0 && h % 2 == 0 ==> Thinned(g.Held(ref'), old(g.Held(ref)), w / 2, h / 2)
    ensures w % 2 == 0 && h % 2 == 0 ==> Thinned(g.Held(avg'), old(g.Held(avg)), w / 2, h / 2)
  {
    ghost var average := g.Held(avg);
    DecimateFrame(g, ref', ref, w, h);
    ghost var small := g.Held(ref');
    assert g.Held(avg) == average;
    DecimateFrame(g, avg', avg, w, h);
    assert g.Held(ref') == small;
  }

  lemma EightFoldHalves(g: Textures)
    requires EightFold(g)
    ensures g.width % 2 == 0 && g.padHeight % 2 == 0 && g.sub2Width % 2 == 0 && g.sub2Height % 2 == 0
    ensures g.width / 2 == g.sub2Width == 2 * g.sub4Width && g.padHeight / 2 == g.sub2Height == 2 * g.sub4Height
    ensures g.sub2Width / 2 == g.sub4Width && g.sub2Height / 2 == g.sub4Height
  {
    EightFoldSizes(g);
    TwiceIsEven(g.width, g.sub2Width);
    TwiceIsEven(g.padHeight, g.sub2Height);
    TwiceIsEven(g.sub2Width, g.sub4Width);
    TwiceIsEven(g.sub2Height, g.sub4Height);
  }

  lemma TwiceIsEven(a: int, b: int)
    requires a == 2 * b
    ensures a % 2 == 0 && a / 2 == b
  {
  }

  /** The four calls of decimate_frame. */
  method DecimateFrames(g: Textures)
    requires g.Valid()
    modifies g`store, g`draws
    ensures g.Valid() && g.Only({Sub2Ref, Sub2Avg, Sub4Ref, Sub4Avg})
    ensures EightFold(g) ==> Pyramid(RefLevels(g), g) && Pyramid(AvgLevels(g), g)
  {
    g.SizesFit();
    ghost var frame, average := g.Held(Ref), g.Held(Avg);
    DecimateBoth(g, Sub2Ref, Sub2Avg, Ref, Avg, g.width, g.padHeight);
    ghost var halfFrame, halfAverage := g.Held(Sub2Ref), g.Held(Sub2Avg);
    DecimateBoth(g, Sub4Ref, Sub4Avg, Sub2Ref, Sub2Avg, g.sub2Width, g.sub2Height);
    if EightFold(g) {
      EightFoldHalves(g);
      ThinnedTwice(g.Held(Sub4Ref), halfFrame, frame, g.sub4Width, g.sub4Height);
      ThinnedTwice(g.Held(Sub4Avg), halfAverage, average, g.sub4Width, g.sub4Height);
    }
  }

  /** What the searches compare. */
  ghost function RefLevels(g: Textures): Levels
    requires g.Valid()
    reads g
  {
    Levels(g.Held(Ref), g.Held(Sub2Ref), g.Held(Sub4Ref))
  }

  ghost function AvgLevels(g: Textures): Levels
    requires g.Valid()
    reads g
  {
    Levels(g.Held(Avg), g.Held(Sub2Avg), g.Held(Sub4Avg))
  }

  method RefineSearch(g: Textures, threshold: real) returns (bad: int)
    requires g.Valid()
    modifies g`id, g`owner, g`store, g`draws
    ensures g.Valid() && g.Only({Vector, Vector2, Vector3, Bad, Bad2})
    ensures EightFold(g) ==>
      FineResult(g.Held(Vector), old(BuffersOf(g)), old(RefLevels(g)), old(AvgLevels(g)), g)
    ensures Counts(bad, g.Held(Vector), threshold, g)
  {
    ghost var ref, avg := RefLevels(g), AvgLevels(g);
    SearchHalf(g);
    assert RefLevels(g) == ref && AvgLevels(g) == avg;
    SearchFull(g);
    ghost var still := BuffersOf(g);
    assert RefLevels(g) == ref && AvgLevels(g) == avg;
    bad := SearchHalfPixels(g, threshold);
  }

  /** The coarse search found the last cheapest offset of each block, or left it in place for want
      of contrast, and the finer ones went on from there. */
  ghost predicate Searched(v: Texture, ref: Levels, avg: Levels, s: Settings, g: Textures) {
    exists start: Buffers :: SearchedVia(v, start, ref, avg, s, g)
  }

  ghost predicate SearchedVia(v: Texture, start: Buffers, ref: Levels, avg: Levels, s: Settings, g: Textures) {
    var rad, w, h := Quarter(s.radius), g.vecWidth, g.vecHeight;
    && FineResult(v, start, ref, avg, g)
    && AllFound(start.vectors, ref.full, avg.full, s.contrastThresh, ref.quarter, avg.quarter, rad, w, h)
  }

  method FindVectors(g: Textures, s: Settings) returns (bad: int)
    requires g.Valid()
    modifies g`id, g`owner, g`store, g`draws
    ensures g.Valid() && g.Only({Diff, Tmp, Vector, Vector2, Vector3, Bad, Bad2})
    ensures EightFold(g) && s.radius > -4 ==> Searched(g.Held(Vector), old(RefLevels(g)), old(AvgLevels(g)), s, g)
    ensures Counts(bad, g.Held(Vector), s.blockBadThresh, g)
  {
    ghost var ref, avg := RefLevels(g), AvgLevels(g);
    MarkAndSearch(g, s.contrastThresh, s.radius);
    ghost var start := BuffersOf(g);
    assert RefLevels(g) == ref && AvgLevels(g) == avg;
    bad := RefineSearch(g, s.blockBadThresh);
    assert EightFold(g) && s.radius > -4 ==> SearchedVia(g.Held(Vector), start, ref, avg, s, g);
  }

  /** The smaller pictures are thinned out. */
  ghost predicate Pyramid(p: Levels, g: Textures) {
    && Thinned(p.half, p.full, g.sub2Width, g.sub2Height)
    && ThinnedByFour(p.quarter, p.full, g.sub4Width, g.sub4Height)
  }

  /** decimate_frame and the four searches. */
  method Search(g: Textures, s: Settings) returns (bad: int)
    requires g.Valid()
    modifies g`id, g`owner, g`store, g`draws
    ensures g.Valid()
    ensures g.Only({Sub2Ref, Sub2Avg, Sub4Ref, Sub4Avg, Diff, Tmp, Vector, Vector2, Vector3, Bad, Bad2})
    ensures EightFold(g) && s.radius > -4 ==>
      SearchedFrom(g.Held(Vector), old(g.Held(Ref)), old(g.Held(Avg)), s, g)
    ensures QuietCostsNothing(g.Held(Vector), old(g.Held(Ref)), old(g.Held(Avg)), s, g)
    ensures Counts(bad, g.Held(Vector), s.blockBadThresh, g)
  {
    ghost var frame, average := g.Held(Ref), g.Held(Avg);
    DecimateFrames(g);
    ghost var ref, avg := RefLevels(g), AvgLevels(g);
    assert ref.full == frame && avg.full == average;
    bad := FindVectors(g, s);
    if EightFold(g) && s.radius > -4 { FoundFromLevels(g.Held(Vector), ref, avg, s, g); }
    SearchedIsQuiet(g.Held(Vector), frame, average, s, g);
  }

  /** The vectors are those of the two pictures and their thinned versions. */
  ghost predicate SearchedFrom(v: Texture, frame: Texture, average: Texture, s: Settings, g: Textures) {
    exists ref: Levels, avg: Levels ::
      && ref.full == frame && avg.full == average && Pyramid(ref, g) && Pyramid(avg, g)
      && Searched(v, ref, avg, s, g)
  }

  lemma FoundFromLevels(v: Texture, ref: Levels, avg: Levels, s: Settings, g: Textures)
    requires Pyramid(ref, g) && Pyramid(avg, g) && Searched(v, ref, avg, s, g)
    ensures SearchedFrom(v, ref.full, avg.full, s, g)
  {
  }

  function MoveShade(avg: Texture, vectors: Texture, w: int, h: int): Texture {
    (x: int, y: int) => MoveFrame(Clamped(avg, w, h), VectorAt(vectors, 8, x, y), x, y)
  }

  /** move_frame. */
  method MoveAlong(g: Textures)
    requires g.Valid()
    modifies g`id, g`owner, g`store, g`draws
    ensures g.Valid() && g.Only({Avg, Tmp})
    ensures Shows(g.Held(Avg), MoveShade(old(g.Held(Avg)), g.Held(Vector), g.width, g.padHeight), g.width, g.padHeight)
  {
    var moved := MoveShade(g.Held(Avg), g.Held(Vector), g.width, g.padHeight);
    Replace(g, Avg, {Avg, Vector}, moved);
  }

  /** The search, and the average moved along the vectors. */
  method FindAndMove(g: Textures, s: Settings) returns (bad: int)
    requires g.Valid()
    modifies g`id, g`owner, g`store, g`draws
    ensures g.Valid()
    ensures g.Only({Sub2Ref, Sub2Avg, Sub4Ref, Sub4Avg, Diff, Tmp, Vector, Vector2, Vector3, Bad, Bad2, Avg})
    ensures EightFold(g) && s.radius > -4 ==>
      SearchedFrom(g.Held(Vector), old(g.Held(Ref)), old(g.Held(Avg)), s, g)
    ensures QuietCostsNothing(g.Held(Vector), old(g.Held(Ref)), old(g.Held(Avg)), s, g)
    ensures Counts(bad, g.Held(Vector), s.blockBadThresh, g)
    ensures Shows(g.Held(Avg), MoveShade(old(g.Held(Avg)), g.Held(Vector), g.width, g.padHeight), g.width, g.padHeight)
  {
    ghost var average := g.Held(Avg);
    bad := Search(g, s);
    ghost var vectors := g.Held(Vector);
    assert g.Held(Avg) == average;
    MoveAlong(g);
    assert g.Held(Vector) == vectors;
  }

  /** The last stages: mix the frame into the average, pull the average back to the frame, and mix
      the result with the previous output. */
  method Blend(g: Textures, s: Settings, ghost input: Texture)
    requires g.Valid() && Sane(s) && Shows(g.Held(Ref), input, g.width, g.padHeight)
    modifies g`id, g`owner, g`store, g`draws
    ensures g.Valid() && g.Only({Avg, Avg2, Tmp})
    ensures Near(g.Held(Avg2), input, s, g.width, g.padHeight)
    ensures var ref, avg, avg2 := old(g.Held(Ref)), old(g.Held(Avg)), old(g.Held(Avg2));
      Mixed(g.Held(Avg), g.Held(Avg2), ref, avg, avg2, s, g.width, g.padHeight)
  {
    ghost var ref, history := g.Held(Ref), g.Held(Avg);
    var mixed := AverageShade(g.Held(Ref), g.Held(Avg), s.delay);
    Replace(g, Avg, {Ref, Avg}, mixed);
    ghost var average := g.Held(Avg);
    assert g.Held(Ref) == ref;
    var corrected := CorrectShade(g.Held(Ref), g.Held(Avg), s.correctThresh);
    Replace(g, Avg, {Ref, Avg}, corrected);
    ghost var pulled, previous := g.Held(Avg), g.Held(Avg2);
    var blended := Pass2Shade(g.Held(Avg), g.Held(Avg2), s.ppThresh);
    Replace(g, Avg2, {Avg, Avg2}, blended);
    BlendIsNear(g.Held(Avg2), pulled, ref, average, previous, input, s, g.width, g.padHeight);
    BlendIsMixed(g.Held(Avg2), pulled, ref, average, history, previous, s, g.width, g.padHeight);
  }

  /** The new average and the new output, pixel by pixel, from the frame, the old average and the
      old output. */
  ghost predicate Mixed(avg': Texture, avg2': Texture, ref: Texture, avg: Texture, avg2: Texture, s: Settings,
                        w: int, h: int)
    requires Sane(s)
  {
    forall x, y | 0 <= x < w && 0 <= y < h :: MixedAt(avg'(x, y), avg2'(x, y), ref(x, y), avg(x, y), avg2(x, y), s)
  }

  predicate MixedAt(avg': Texel, avg2': Texel, ref: Texel, avg: Texel, avg2: Texel, s: Settings)
    requires Sane(s)
  {
    && avg' == CorrectFrame2(ref, AverageFrame(avg, ref, s.delay as real), s.correctThresh)
    && avg2' == DenoisePass2(avg', avg2, s.ppThresh)
  }

  lemma BlendIsMixed(t: Texture, pulled: Texture, ref: Texture, average: Texture, history: Texture, previous: Texture,
                     s: Settings, w: int, h: int)
    requires Sane(s) && Shows(average, AverageShade(ref, history, s.delay), w, h)
    requires Shows(pulled, CorrectShade(ref, average, s.correctThresh), w, h)
    requires Shows(t, Pass2Shade(pulled, previous, s.ppThresh), w, h)
    ensures Mixed(pulled, t, ref, history, previous, s, w, h)
  {
    forall x, y | 0 <= x < w && 0 <= y < h
      ensures MixedAt(pulled(x, y), t(x, y), ref(x, y), history(x, y), previous(x, y), s)
    {
      assert average(x, y) == AverageFrame(history(x, y), ref(x, y), s.delay as real);
      assert pulled(x, y) == CorrectFrame2(ref(x, y), average(x, y), s.correctThresh);
      assert t(x, y) == DenoisePass2(pulled(x, y), previous(x, y), s.ppThresh);
    }
  }

  /** One part of a pixel: `mean` divides the way from the old average to the frame as 1 : delay, and
      the new average is the mean corrected towards the frame. */
  predicate PartAveraged(avg': real, ref: real, avg: real, delay: nat, threshold: real) {
    var mean := Average(avg, ref, delay as real);
    && Between(mean, avg, ref) && delay as real * Abs(mean - avg) == Abs(ref - mean)
    && Corrected(avg', ref, mean, threshold)
  }

  /** What the three shaders together do to each part. */
  lemma MixedParts(avg': Texel, avg2': Texel, ref: Texel, avg: Texel, avg2: Texel, s: Settings)
    requires Sane(s) && MixedAt(avg', avg2', ref, avg, avg2, s)
    ensures PartAveraged(avg'.x, ref.x, avg.x, s.delay, s.correctThresh)
    ensures PartAveraged(avg'.y, ref.y, avg.y, s.delay, s.correctThresh)
    ensures PartAveraged(avg'.z, ref.z, avg.z, s.delay, s.correctThresh)
    ensures LumaBlended(avg2'.x, avg'.x, avg2.x, s.ppThresh)
    ensures ChromaBlended(avg2'.y, avg'.y, avg2.y, s.ppThresh) && ChromaBlended(avg2'.z, avg'.z, avg2.z, s.ppThresh)
    ensures avg'.w == 1.0 && avg2'.w == 1.0
  {
    PartIsAveraged(ref.x, avg.x, s.delay, s.correctThresh);
    PartIsAveraged(ref.y, avg.y, s.delay, s.correctThresh);
    PartIsAveraged(ref.z, avg.z, s.delay, s.correctThresh);
    Pass2LumaBlends(avg'.x, avg2.x, s.ppThresh);
    Pass2ChromaBlends(avg'.y, avg2.y, s.ppThresh);
    Pass2ChromaBlends(avg'.z, avg2.z, s.ppThresh);
  }

  lemma PartIsAveraged(ref: real, avg: real, delay: nat, threshold: real)
    requires threshold > 0.0
    ensures PartAveraged(CorrectPart(ref, Average(avg, ref, delay as real), threshold), ref, avg, delay, threshold)
  {
    AverageDivides(avg, ref, delay as real);
    CorrectPartPulls(ref, Average(avg, ref, delay as real), threshold);
  }

  /** A pixel that does not change keeps its value in the average and in the output. */
  lemma StillPixelStays(avg': Texel, avg2': Texel, v: Texel, s: Settings)
    requires Sane(s) && v.w == 1.0 && MixedAt(avg', avg2', v, v, v, s)
    ensures avg' == v && avg2' == v
  {
    StillAverage(v.x, s.delay);
    StillAverage(v.y, s.delay);
    StillAverage(v.z, s.delay);
  }

  lemma StillAverage(v: real, delay: nat)
    ensures Average(v, v, delay as real) == v
  {
    assert v * delay as real + v == v * (delay as real + 1.0);
  }

  lemma BlendIsNear(t: Texture, pulled: Texture, ref: Texture, average: Texture, previous: Texture, input: Texture,
                    s: Settings, w: int, h: int)
    requires Sane(s) && Shows(ref, input, w, h)
    requires Shows(pulled, CorrectShade(ref, average, s.correctThresh), w, h)
    requires Shows(t, Pass2Shade(pulled, previous, s.ppThresh), w, h)
    ensures Near(t, input, s, w, h)
  {
    forall x, y | 0 <= x < w && 0 <= y < h ensures NearAt(t(x, y), input(x, y), s) {
      ErrorBound(ref(x, y), average(x, y), previous(x, y), s.correctThresh, s.ppThresh);
      assert ref(x, y) == input(x, y);
      assert pulled(x, y) == CorrectFrame2(ref(x, y), average(x, y), s.correctThresh);
      assert t(x, y) == DenoisePass2(pulled(x, y), previous(x, y), s.ppThresh);
    }
  }

  /** The output is the sharpened picture of something near the input. */
  ghost predicate Denoised(output: Texture, input: Texture, s: Settings, w: int, h: int) {
    exists t: Texture ::
      && Near(t, Adjusted(input, s), s, w, h)
      && Shows(output, CopyShade(SharpenShade(Clamped(t, w, h), s.sharpen)), w, h)
  }

  // ----- Planes -----

  /** A picture in three planes, as decoder and renderers share it. */
  datatype Yuv = Yuv(y: Grid, u: Grid, v: Grid)

  function Lit(plane: Grid): Texture {
    (x: int, y: int) => Gray(plane(x, y))
  }

  /** The picture shows the planes below 32 rows of padding, a chroma value for two by two pixels. */
  ghost predicate Presents(t: Texture, p: Yuv, w: int, h: int) {
    && (forall x, y | 0 <= x < w && 0 <= y < h :: t(x, y + 32).x == p.y(x, y))
    && (forall x, y | 0 <= x < 2 * (w / 2) && 0 <= y < 2 * (h / 2) ::
          t(x, y + 32).y == p.u(x / 2, y / 2) && t(x, y + 32).z == p.v(x / 2, y / 2))
  }

  /** The rows above and below show what the plane textures held there. */
  ghost predicate PaddingStays(t: Texture, y: Texture, w: int, h: int) {
    forall i, j | 0 <= i < w && (0 <= j < 32 || h + 32 <= j < h + 64) :: t(i, j).x == y(i, j).x
  }

  /** The planes that are read back from a picture: of two by two chroma values, the last. */
  ghost predicate ReadFrom(p: Yuv, t: Texture, w: int, h: int) {
    && (forall x, y | 0 <= x < w && 0 <= y < h :: p.y(x, y) == t(x, y + 32).x)
    && (forall x, y | 0 <= x < w / 2 && 0 <= y < h / 2 ::
          p.u(x, y) == t(2 * x + 1, 2 * y + 33).y && p.v(x, y) == t(2 * x + 1, 2 * y + 33).z)
  }

  /** Loading and unloading gives all three planes back, whether the sizes are even or not. */
  lemma PlanesRoundTrip(p: Yuv, q: Yuv, t: Texture, w: int, h: int)
    requires Presents(t, p, w, h) && ReadFrom(q, t, w, h)
    ensures forall x, y | 0 <= x < w && 0 <= y < h :: q.y(x, y) == p.y(x, y)
    ensures forall x, y | 0 <= x < w / 2 && 0 <= y < h / 2 :: q.u(x, y) == p.u(x, y) && q.v(x, y) == p.v(x, y)
  {
    forall x, y | 0 <= x < w && 0 <= y < h ensures q.y(x, y) == p.y(x, y) {
      assert t(x, y + 32).x == p.y(x, y);
    }
    forall x, y | 0 <= x < w / 2 && 0 <= y < h / 2 ensures q.u(x, y) == p.u(x, y) && q.v(x, y) == p.v(x, y) {
      var i, j := 2 * x + 1, 2 * y + 1;
      assert i / 2 == x && j / 2 == y;
      assert t(i, j + 32).y == p.u(i / 2, j / 2) && t(i, j + 32).z == p.v(i / 2, j / 2);
    }
  }

  function LoadShade(y: Texture, u: Texture, v: Texture): Texture {
    (i: int, j: int) => YuvInput(y, u, v, i, j)
  }

  /** What is drawn from the uploaded planes presents them. */
  lemma LoadedPresents(t: Texture, before: Texture, y: Texture, u: Texture, v: Texture, y0: Texture, u0: Texture,
                       v0: Texture, p: Yuv, w: int, h: int)
    requires w > 0 && h > 0 && t == Painted(before, LoadShade(y, u, v), w, h + 64)
    requires y == Pasted(y0, Lit(p.y), 32, w, h)
    requires u == Pasted(u0, Lit(p.u), 16, w / 2, h / 2) && v == Pasted(v0, Lit(p.v), 16, w / 2, h / 2)
    ensures Presents(t, p, w, h) && PaddingStays(t, y0, w, h)
  {
    forall i, j | 0 <= i < w && (0 <= j < 32 || h + 32 <= j < h + 64) ensures t(i, j).x == y0(i, j).x {
      assert t(i, j) == YuvInput(y, u, v, i, j);
    }
    forall i, j | 0 <= i < w && 0 <= j < h ensures t(i, j + 32).x == p.y(i, j) {
      assert t(i, j + 32) == YuvInput(y, u, v, i, j + 32);
    }
    forall i, j | 0 <= i < 2 * (w / 2) && 0 <= j < 2 * (h / 2)
      ensures t(i, j + 32).y == p.u(i / 2, j / 2) && t(i, j + 32).z == p.v(i / 2, j / 2)
    {
      assert t(i, j + 32) == YuvInput(y, u, v, i, j + 32);
      ChromaRow(j);
    }
  }

  lemma ChromaRow(j: int)
    ensures (j + 32) / 2 == j / 2 + 16
  {
  }

  function LumaShade(t: Texture): Texture {
    (x: int, y: int) => Gray(t(x, y).x)
  }

  /** glReadPixels from row `top` on. */
  function Rows(t: Texture, top: int): Grid {
    (x: int, y: int) => t(x, y + top).x
  }

  /** The texel of a w by h picture that is drawn for a pixel of a plane of half the size. */
  function HalfShade(t: Texture, pick: Texel -> real, w: int, h: int): Texture {
    (x: int, y: int) =>
      if w / 2 > 0 && h / 2 > 0 then Gray(pick(t(Scaled(x, w, w / 2), Scaled(y, h, h / 2)))) else UNSET
  }

  lemma HalfShadeAt(t: Texture, pick: Texel -> real, w: int, h: int, x: int, y: int)
    requires 0 <= x < w / 2 && 0 <= y < h / 2
    ensures HalfShade(t, pick, w, h + 64)(x, y + 16).x == pick(t(2 * x + 1, 2 * y + 33))
  {
    ScaledByLessThanHalf(x, w);
    ScaledByLessThanHalf(y + 16, h + 64);
  }

  lemma ChromaIsRead(plane: Texture, before: Texture, t: Texture, pick: Texel -> real, w: int, h: int)
    requires plane == Painted(before, HalfShade(t, pick, w, h + 64), w / 2, (h + 64) / 2)
    ensures forall x, y | 0 <= x < w / 2 && 0 <= y < h / 2 :: Rows(plane, 16)(x, y) == pick(t(2 * x + 1, 2 * y + 33))
  {
    forall x, y | 0 <= x < w / 2 && 0 <= y < h / 2
      ensures Rows(plane, 16)(x, y) == pick(t(2 * x + 1, 2 * y + 33))
    {
      HalfShadeAt(t, pick, w, h, x, y);
    }
  }

  // ----- From frame to frame -----

  /** What is kept from one frame to the next, and the picture before sharpening: the average, the
      last output, the vectors, and whether the next frame starts a new scene. */
  datatype Pictures = Pictures(avg: Texture, soft: Texture, out: Texture, vectors: Texture, restart: bool)

  /** The average and the output that a frame is to be mixed with. */
  function Resumed(kept: Texture, restart: bool, input: Texture): Texture {
    if restart then CopyShade(input) else kept
  }

  /** One frame: the old average is moved along the vectors and mixed with the frame, the result with
      the last output, and that is sharpened and shown. */
  ghost predicate FrameStep(b: Pictures, a: Pictures, input: Texture, shown: Texture, s: Settings, g: Textures)
    requires Sane(s)
  {
    var w, h, ref := g.width, g.padHeight, Adjusted(input, s);
    var avg, previous := Resumed(b.avg, b.restart, input), Resumed(b.out, b.restart, input);
    && Mixed(a.avg, a.soft, ref, MoveShade(avg, a.vectors, w, h), previous, s, w, h)
    && Shows(a.out, SharpenShade(Clamped(a.soft, w, h), s.sharpen), w, h)
    && Shows(shown, CopyShade(a.out), w, h)
    && QuietCostsNothing(a.vectors, ref, avg, s, g)
    && Restarts(a.restart, a.vectors, s, g)
  }

  /** Blocks without a visible difference have vectors that cost nothing. */
  ghost predicate QuietCostsNothing(vectors: Texture, ref: Texture, avg: Texture, s: Settings, g: Textures) {
    EightFold(g) && s.radius > -4 ==> forall x, y |
      0 <= x < g.vecWidth && 0 <= y < g.vecHeight && LowContrast(ref, avg, s.contrastThresh, x, y) ::
        vectors(x, y).z == 0.0
  }

  function MostBad(s: Settings, g: Textures): int {
    g.width * g.height * s.sceneThresh / 6400
  }

  /** scene_thresh is the part of the blocks, in hundredths, that must be exceeded. */
  lemma MostBadIsPart(s: Settings, g: Textures, bad: int)
    requires g.width == 8 * (g.width / 8) && g.height == 8 * (g.height / 8)
    ensures bad > MostBad(s, g) <==> 100 * bad > (g.width / 8) * (g.height / 8) * s.sceneThresh
  {
    var a, b := g.width / 8, g.height / 8;
    assert (8 * a) * (8 * b) == 64 * (a * b);
    assert g.width * g.height * s.sceneThresh == 64 * (a * b * s.sceneThresh);
  }

  /** A new scene is announced for too many bad blocks, as far as they are counted. */
  ghost predicate Restarts(restart: bool, vectors: Texture, s: Settings, g: Textures) {
    && g.vecWidth >= 1 && g.vecHeight >= 1
    && (Counted(g).exact ==>
         (restart <==>
          BlockSum(BadBlocks(vectors, s.blockBadThresh), 0, 0, Counted(g).n, Counted(g).n) > MostBad(s, g) as real))
  }

  lemma CountDecides(restart: bool, bad: int, vectors: Texture, s: Settings, g: Textures)
    requires Counts(bad, vectors, s.blockBadThresh, g) && (restart <==> bad > MostBad(s, g))
    ensures Restarts(restart, vectors, s, g)
  {
  }

  lemma SearchedIsQuiet(vectors: Texture, frame: Texture, average: Texture, s: Settings, g: Textures)
    requires EightFold(g) && s.radius > -4 ==> SearchedFrom(vectors, frame, average, s, g)
    ensures QuietCostsNothing(vectors, frame, average, s, g)
  {
    if EightFold(g) && s.radius > -4 {
      var ref: Levels, avg: Levels :|
        && ref.full == frame && avg.full == average && Pyramid(ref, g) && Pyramid(avg, g)
        && Searched(vectors, ref, avg, s, g);
      SearchLeavesQuiet(vectors, ref, avg, s, g);
    }
  }

  lemma SearchLeavesQuiet(vectors: Texture, ref: Levels, avg: Levels, s: Settings, g: Textures)
    requires EightFold(g) && Searched(vectors, ref, avg, s, g)
    ensures QuietCostsNothing(vectors, ref.full, avg.full, s, g)
  {
    var start: Buffers :| SearchedVia(vectors, start, ref, avg, s, g);
    FineIsNoWorse(vectors, start, ref, avg, g);
    QuietStaysFree(vectors, start.vectors, ref, avg, s.contrastThresh, Quarter(s.radius), g.vecWidth, g.vecHeight);
  }

  lemma QuietStaysFree(vectors: Texture, coarse: Texture, ref: Levels, avg: Levels, threshold: real, rad: int,
                       w: int, h: int)
    requires NoWorse(vectors, coarse, w, h)
    requires AllFound(coarse, ref.full, avg.full, threshold, ref.quarter, avg.quarter, rad, w, h)
    ensures forall x, y | 0 <= x < w && 0 <= y < h && LowContrast(ref.full, avg.full, threshold, x, y) ::
      vectors(x, y).z == 0.0
  {
    forall x, y | 0 <= x < w && 0 <= y < h && LowContrast(ref.full, avg.full, threshold, x, y)
      ensures vectors(x, y).z == 0.0
    {
      var cost := CostsAt(ref.quarter, avg.quarter, x, y);
      assert Found(LowContrast(ref.full, avg.full, threshold, x, y), coarse(x, y), cost, rad);
      assert NoWorseAt(vectors(x, y), coarse(x, y));
    }
  }

  /** Only what is inside the picture matters for moving it. */
  lemma MoveSame(avg: Texture, same: Texture, vectors: Texture, w: int, h: int)
    requires w > 0 && h > 0 && Shows(avg, same, w, h)
    ensures Shows(MoveShade(avg, vectors, w, h), MoveShade(same, vectors, w, h), w, h)
  {
    forall x, y ensures Clamped(avg, w, h)(x, y) == Clamped(same, w, h)(x, y) {
      assert 0 <= ClampInt(x, 0, w - 1) < w && 0 <= ClampInt(y, 0, h - 1) < h;
    }
    forall x, y | 0 <= x < w && 0 <= y < h
      ensures MoveShade(avg, vectors, w, h)(x, y) == MoveShade(same, vectors, w, h)(x, y)
    {
    }
  }

  /** ... and for whether a block is quiet. */
  lemma QuietSame(vectors: Texture, ref: Texture, avg: Texture, ref': Texture, avg': Texture, s: Settings, g: Textures)
    requires QuietCostsNothing(vectors, ref, avg, s, g)
    requires Shows(ref, ref', g.width, g.padHeight) && Shows(avg, avg', g.width, g.padHeight)
    ensures QuietCostsNothing(vectors, ref', avg', s, g)
  {
    if EightFold(g) && s.radius > -4 {
      EightFoldSizes(g);
      forall x, y |
        0 <= x < g.vecWidth && 0 <= y < g.vecHeight && LowContrast(ref', avg', s.contrastThresh, x, y)
        ensures LowContrast(ref, avg, s.contrastThresh, x, y)
      {
        forall i, j | 8 * x <= i < 8 * x + 8 && 8 * y <= j < 8 * y + 8
          ensures Invisible(DiffFrame(ref(i, j), avg(i, j)), s.contrastThresh)
        {
          assert ref(i, j) == ref'(i, j) && avg(i, j) == avg'(i, j);
        }
      }
    }
  }

  lemma MixedSame(a: Pictures, ref: Texture, moved: Texture, previous: Texture, ref': Texture, moved': Texture,
                  previous': Texture, s: Settings, w: int, h: int)
    requires Sane(s) && Mixed(a.avg, a.soft, ref, moved, previous, s, w, h)
    requires Shows(ref, ref', w, h) && Shows(moved, moved', w, h) && Shows(previous, previous', w, h)
    ensures Mixed(a.avg, a.soft, ref', moved', previous', s, w, h)
  {
    forall x, y | 0 <= x < w && 0 <= y < h
      ensures MixedAt(a.avg(x, y), a.soft(x, y), ref'(x, y), moved'(x, y), previous'(x, y), s)
    {
      assert MixedAt(a.avg(x, y), a.soft(x, y), ref(x, y), moved(x, y), previous(x, y), s);
    }
  }

  /** The stages, one after the other, make up the step. */
  lemma StagesMakeStep(b: Pictures, a: Pictures, input: Texture, shown: Texture, s: Settings, g: Textures,
                       ref: Texture, avg: Texture, previous: Texture, moved: Texture)
    requires Sane(s) && g.width > 0 && g.padHeight > 0
    requires Shows(ref, Adjusted(input, s), g.width, g.padHeight)
    requires Shows(avg, Resumed(b.avg, b.restart, input), g.width, g.padHeight)
    requires Shows(previous, Resumed(b.out, b.restart, input), g.width, g.padHeight)
    requires Shows(moved, MoveShade(avg, a.vectors, g.width, g.padHeight), g.width, g.padHeight)
    requires Mixed(a.avg, a.soft, ref, moved, previous, s, g.width, g.padHeight)
    requires Shows(a.out, SharpenShade(Clamped(a.soft, g.width, g.padHeight), s.sharpen), g.width, g.padHeight)
    requires Shows(shown, CopyShade(a.out), g.width, g.padHeight)
    requires QuietCostsNothing(a.vectors, ref, avg, s, g) && Restarts(a.restart, a.vectors, s, g)
    ensures FrameStep(b, a, input, shown, s, g)
  {
    var w, h := g.width, g.padHeight;
    var avg', previous' := Resumed(b.avg, b.restart, input), Resumed(b.out, b.restart, input);
    MoveSame(avg, avg', a.vectors, w, h);
    var moved' := MoveShade(avg', a.vectors, w, h);
    assert Shows(moved, moved', w, h);
    MixedSame(a, ref, moved, previous, Adjusted(input, s), moved', previous', s, w, h);
    QuietSame(a.vectors, ref, avg, Adjusted(input, s), avg', s, g);
  }

  lemma MixedIsNear(avg': Texture, soft: Texture, ref: Texture, avg: Texture, previous: Texture, s: Settings,
                    w: int, h: int)
    requires Sane(s) && Mixed(avg', soft, ref, avg, previous, s, w, h)
    ensures Near(soft, ref, s, w, h)
  {
    forall x, y | 0 <= x < w && 0 <= y < h ensures NearAt(soft(x, y), ref(x, y), s) {
      assert MixedAt(avg'(x, y), soft(x, y), ref(x, y), avg(x, y), previous(x, y), s);
      MixedIsNearAt(avg'(x, y), soft(x, y), ref(x, y), avg(x, y), previous(x, y), s);
    }
  }

  lemma MixedIsNearAt(avg': Texel, soft: Texel, ref: Texel, avg: Texel, previous: Texel, s: Settings)
    requires Sane(s) && MixedAt(avg', soft, ref, avg, previous, s)
    ensures NearAt(soft, ref, s)
  {
    ErrorBound(ref, AverageFrame(avg, ref, s.delay as real), previous, s.correctThresh, s.ppThresh);
  }

  lemma ShownIsDenoised(soft: Texture, output: Texture, shown: Texture, input: Texture, s: Settings, w: int, h: int)
    requires Near(soft, Adjusted(input, s), s, w, h)
    requires Shows(output, SharpenShade(Clamped(soft, w, h), s.sharpen), w, h) && Shows(shown, CopyShade(output), w, h)
    ensures Denoised(shown, input, s, w, h)
  {
    assert Shows(shown, CopyShade(SharpenShade(Clamped(soft, w, h), s.sharpen)), w, h);
  }

  /** Whatever came before, the output is the sharpened picture of something near the input. */
  lemma StepDenoises(b: Pictures, a: Pictures, input: Texture, shown: Texture, s: Settings, g: Textures)
    requires Sane(s) && FrameStep(b, a, input, shown, s, g)
    ensures Near(a.soft, Adjusted(input, s), s, g.width, g.padHeight)
    ensures Denoised(shown, input, s, g.width, g.padHeight)
  {
    var w, h, ref := g.width, g.padHeight, Adjusted(input, s);
    var avg, previous := Resumed(b.avg, b.restart, input), Resumed(b.out, b.restart, input);
    MixedIsNear(a.avg, a.soft, ref, MoveShade(avg, a.vectors, w, h), previous, s, w, h);
    ShownIsDenoised(a.soft, a.out, shown, input, s, w, h);
  }

  /** The steps of a clip, one for each frame. */
  ghost predicate Chain(trace: seq<Pictures>, clip: seq<Texture>, shown: seq<Texture>, s: Settings, g: Textures)
    requires Sane(s)
  {
    && |trace| == |clip| + 1 && |shown| == |clip|
    && forall k | 0 <= k < |clip| :: StepAt(trace, clip, shown, s, g, k)
  }

  ghost predicate StepAt(trace: seq<Pictures>, clip: seq<Texture>, shown: seq<Texture>, s: Settings, g: Textures,
                         k: nat)
    requires Sane(s) && |trace| == |clip| + 1 && |shown| == |clip| && k < |clip|
  {
    FrameStep(trace[k], trace[k + 1], clip[k], shown[k], s, g)
  }

  lemma ChainGrows(trace: seq<Pictures>, clip: seq<Texture>, shown: seq<Texture>, a: Pictures, input: Texture,
                   picture: Texture, s: Settings, g: Textures)
    requires Sane(s) && Chain(trace, clip, shown, s, g) && FrameStep(trace[|clip|], a, input, picture, s, g)
    ensures Chain(trace + [a], clip + [input], shown + [picture], s, g)
  {
    forall k | 0 <= k <= |clip| ensures StepAt(trace + [a], clip + [input], shown + [picture], s, g, k) {
      StepStays(trace, clip, shown, a, input, picture, s, g, k);
    }
  }

  lemma StepStays(trace: seq<Pictures>, clip: seq<Texture>, shown: seq<Texture>, a: Pictures, input: Texture,
                  picture: Texture, s: Settings, g: Textures, k: nat)
    requires Sane(s) && Chain(trace, clip, shown, s, g) && FrameStep(trace[|clip|], a, input, picture, s, g)
    requires k <= |clip|
    ensures StepAt(trace + [a], clip + [input], shown + [picture], s, g, k)
  {
    var b, b' := (trace + [a])[k], (trace + [a])[k + 1];
    var i, p := (clip + [input])[k], (shown + [picture])[k];
    if k < |clip| {
      assert StepAt(trace, clip, shown, s, g, k);
      assert b == trace[k] && b' == trace[k + 1] && i == clip[k] && p == shown[k];
    } else {
      assert b == trace[k] && b' == a && i == input && p == picture;
    }
    assert FrameStep(b, b', i, p, s, g);
  }

  lemma ChainDenoises(trace: seq<Pictures>, clip: seq<Texture>, shown: seq<Texture>, s: Settings, g: Textures)
    requires Sane(s) && g.width > 0 && g.padHeight > 0 && Chain(trace, clip, shown, s, g)
    ensures forall k | 0 <= k < |clip| :: Denoised(shown[k], clip[k], s, g.width, g.padHeight)
  {
    forall k | 0 <= k < |clip| ensures Denoised(shown[k], clip[k], s, g.width, g.padHeight) {
      assert StepAt(trace, clip, shown, s, g, k);
      StepDenoises(trace[k], trace[k + 1], clip[k], shown[k], s, g);
    }
  }

  class Denoiser {
    const g: Textures
    const settings: Settings
    var newScene: bool
    var frameNum: nat
    var badVector: int

    /** cg_init and cg_enable. */
    constructor (textures: Textures, s: Settings)
      requires textures.Valid() && Sane(s)
      ensures Valid() && g == textures && settings == s && newScene && frameNum == 0
    {
      g, settings, newScene, frameNum, badVector := textures, s, true, 0, 0;
    }

    ghost predicate Valid()
      reads this, g
    {
      g.Valid() && Sane(settings)
    }

    /** What a picture before sharpening has left behind. */
    ghost function Kept(soft: Texture): Pictures
      requires Valid()
      reads this, g
    {
      Pictures(g.Held(Avg), soft, g.Held(Avg2), g.Held(Vector), newScene)
    }

    /** loadFrame: the planes are sent to their textures, and drawn into one picture. */
    method LoadFrame(p: Yuv)
      requires Valid()
      modifies g`store, g`draws
      ensures Valid() && g.Only({Frame, InY, InU, InV})
      ensures Presents(g.Held(Frame), p, g.width, g.height)
      ensures PaddingStays(g.Held(Frame), old(g.Held(InY)), g.width, g.height)
    {
      ghost var y0, u0, v0 := g.Held(InY), g.Held(InU), g.Held(InV);
      SendPlanes(p);
      ghost var before, y, u, v := g.Held(Frame), g.Held(InY), g.Held(InU), g.Held(InV);
      var shade := LoadShade(g.Held(InY), g.Held(InU), g.Held(InV));
      g.Render(Frame, {}, {InY, InU, InV}, shade, g.width, g.padHeight);
      LoadedPresents(g.Held(Frame), before, y, u, v, y0, u0, v0, p, g.width, g.height);
    }

    method SendPlanes(p: Yuv)
      requires Valid()
      modifies g`store
      ensures Valid() && g.Only({InY, InU, InV})
      ensures g.Held(InY) == Pasted(old(g.Held(InY)), Lit(p.y), 32, g.width, g.height)
      ensures g.Held(InU) == Pasted(old(g.Held(InU)), Lit(p.u), 16, g.width / 2, g.height / 2)
      ensures g.Held(InV) == Pasted(old(g.Held(InV)), Lit(p.v), 16, g.width / 2, g.height / 2)
    {
      ghost var u0, v0 := g.Held(InU), g.Held(InV);
      g.Upload(InY, Lit(p.y), 32, g.width, g.height);
      ghost var y := g.Held(InY);
      assert g.Held(InU) == u0 && g.Held(InV) == v0;
      g.Upload(InU, Lit(p.u), 16, g.width / 2, g.height / 2);
      ghost var u := g.Held(InU);
      assert g.Held(InY) == y && g.Held(InV) == v0;
      g.Upload(InV, Lit(p.v), 16, g.width / 2, g.height / 2);
      assert g.Held(InY) == y && g.Held(InU) == u;
    }

    /** denoiseFrame. */
    method DenoiseFrame(ghost input: Texture, ghost before: Texture) returns (ghost soft: Texture)
      requires Valid() && Shows(g.Held(Frame), input, g.width, g.padHeight)
      modifies this`newScene, this`frameNum, this`badVector, g`id, g`owner, g`store, g`draws
      ensures Valid() && frameNum == old(frameNum) + 1 && badVector == 0
      ensures FrameStep(old(Kept(before)), Kept(soft), input, g.Held(Frame), settings, g)
    {
      badVector := 0;
      frameNum := frameNum + 1;
      Start(input);
      ghost var ref, avg, previous := g.Held(Ref), g.Held(Avg), g.Held(Avg2);
      MoveAverage();
      ghost var moved := g.Held(Avg);
      badVector := 0;
      soft := Output();
      StagesMakeStep(old(Kept(before)), Kept(soft), input, g.Held(Frame), settings, g, ref, avg, previous, moved);
    }

    method Start(ghost input: Texture)
      requires Valid() && Shows(g.Held(Frame), input, g.width, g.padHeight)
      modifies this`newScene, g`id, g`owner, g`store, g`draws
      ensures Valid() && !newScene && g.Only({Ref, Avg, Avg2, Tmp})
      ensures Shows(g.Held(Ref), Adjusted(input, settings), g.width, g.padHeight)
      ensures Shows(g.Held(Avg), Resumed(old(g.Held(Avg)), old(newScene), input), g.width, g.padHeight)
      ensures Shows(g.Held(Avg2), Resumed(old(g.Held(Avg2)), old(newScene), input), g.width, g.padHeight)
    {
      CopyFrame(g, Ref, Frame);
      if newScene {
        StartScene(input);
      }
      AdjustContrast(g, settings, input);
    }

    method StartScene(ghost input: Texture)
      requires Valid() && Shows(g.Held(Frame), input, g.width, g.padHeight)
      modifies this`newScene, g`store, g`draws
      ensures Valid() && !newScene && g.Only({Avg, Avg2})
      ensures Shows(g.Held(Avg), CopyShade(input), g.width, g.padHeight)
      ensures Shows(g.Held(Avg2), CopyShade(input), g.width, g.padHeight)
    {
      newScene := false;
      CopyFrame(g, Avg, Frame);
      CopyFrame(g, Avg2, Frame);
    }

    /** The search and the move; too many bad vectors announce a new scene. */
    method MoveAverage()
      requires Valid() && !newScene
      modifies this`newScene, this`badVector, g`id, g`owner, g`store, g`draws
      ensures Valid() && g.Held(Ref) == old(g.Held(Ref)) && g.Held(Avg2) == old(g.Held(Avg2))
      ensures var w, h := g.width, g.padHeight;
        Shows(g.Held(Avg), MoveShade(old(g.Held(Avg)), g.Held(Vector), w, h), w, h)
      ensures QuietCostsNothing(g.Held(Vector), old(g.Held(Ref)), old(g.Held(Avg)), settings, g)
      ensures Restarts(newScene, g.Held(Vector), settings, g)
    {
      ghost var avg := g.Held(Avg);
      var bad := FindAndMove(g, settings);
      ghost var moved, vectors := g.Held(Avg), g.Held(Vector);
      assert Shows(moved, MoveShade(avg, vectors, g.width, g.padHeight), g.width, g.padHeight);
      var most := SceneLimit();
      CountDecides(bad > most, bad, vectors, settings, g);
      Announce(bad, most);
    }

    method Announce(bad: int, most: int)
      requires !newScene
      modifies this`newScene, this`badVector
      ensures newScene <==> bad > most
    {
      badVector := bad;
      if badVector > most {
        newScene := true;
      }
    }

    method SceneLimit() returns (most: int)
      ensures most == MostBad(settings, g)
    {
      most := g.width * g.height * settings.sceneThresh / 6400;
    }

    /** The last four stages, and the copy that is read back. */
    method Output() returns (ghost soft: Texture)
      requires Valid()
      modifies g`id, g`owner, g`store, g`draws
      ensures Valid() && g.Held(Vector) == old(g.Held(Vector))
      ensures var ref, avg, avg2 := old(g.Held(Ref)), old(g.Held(Avg)), old(g.Held(Avg2));
        Mixed(g.Held(Avg), soft, ref, avg, avg2, settings, g.width, g.padHeight)
      ensures var w, h := g.width, g.padHeight;
        Shows(g.Held(Avg2), SharpenShade(Clamped(soft, w, h), settings.sharpen), w, h)
      ensures Shows(g.Held(Frame), CopyShade(g.Held(Avg2)), g.width, g.padHeight)
    {
      Blend(g, settings, g.Held(Ref));
      soft := g.Held(Avg2);
      ghost var average := g.Held(Avg);
      var sharp := SharpenShade(Clamped(g.Held(Avg2), g.width, g.padHeight), settings.sharpen);
      Replace(g, Avg2, {Avg2}, sharp);
      CopyFrame(g, Frame, Avg2);
      assert g.Held(Avg) == average;
    }

    /** unloadFrame: the picture is drawn into the three planes and read back. */
    method UnloadFrame() returns (p: Yuv)
      requires Valid()
      modifies g`store, g`draws
      ensures Valid() && g.Only({InY, InU, InV}) && ReadFrom(p, old(g.Held(Frame)), g.width, g.height)
    {
      ghost var t := g.Held(Frame);
      var luma := LumaShade(g.Held(Frame));
      g.Render(InY, {}, {Frame}, luma, g.width, g.padHeight);
      var y := Rows(g.Held(InY), 32);
      assert g.Held(Frame) == t;
      var u := UnloadChroma(InU, (v: Texel) => v.y);
      var v := UnloadChroma(InV, (v: Texel) => v.z);
      p := Yuv(y, u, v);
      forall i, j | 0 <= i < g.width && 0 <= j < g.height ensures p.y(i, j) == t(i, j + 32).x {
      }
    }

    method UnloadChroma(target: Role, pick: Texel -> real) returns (plane: Grid)
      requires Valid() && (target == InU || target == InV)
      modifies g`store, g`draws
      ensures Valid() && g.Only({target})
      ensures forall x, y | 0 <= x < g.width / 2 && 0 <= y < g.height / 2 ::
        plane(x, y) == pick(old(g.Held(Frame))(2 * x + 1, 2 * y + 33))
    {
      ghost var t, before := g.Held(Frame), g.Held(target);
      var shade := HalfShade(g.Held(Frame), pick, g.width, g.padHeight);
      g.Render(target, {}, {Frame}, shade, g.width / 2, g.padHeight / 2);
      plane := Rows(g.Held(target), 16);
      ChromaIsRead(g.Held(target), before, t, pick, g.width, g.height);
    }

    /** What the renderer does with one frame. */
    method PlayOne(frame: Yuv, ghost before: Texture)
      returns (planes: Yuv, ghost soft: Texture, ghost input: Texture, ghost picture: Texture)
      requires Valid()
      modifies this`newScene, this`frameNum, this`badVector, g`id, g`owner, g`store, g`draws
      ensures Valid() && frameNum == old(frameNum) + 1
      ensures Presents(input, frame, g.width, g.height) && ReadFrom(planes, picture, g.width, g.height)
      ensures FrameStep(old(Kept(before)), Kept(soft), input, picture, settings, g)
    {
      LoadFrame(frame);
      input := g.Held(Frame);
      soft := DenoiseFrame(input, before);
      picture := g.Held(Frame);
      ghost var after := Kept(soft);
      planes := UnloadFrame();
      assert Kept(soft) == after;
    }

    /** Frames as a renderer gets them: each is a step from what the one before has left behind, and
        whatever that was, it is denoised within the bounds. */
    method Play(clip: seq<Yuv>)
      returns (shown: seq<Yuv>, ghost trace: seq<Pictures>, ghost inputs: seq<Texture>, ghost pictures: seq<Texture>)
      requires Valid()
      modifies this`newScene, this`frameNum, this`badVector, g`id, g`owner, g`store, g`draws
      ensures Valid() && frameNum == old(frameNum) + |clip|
      ensures |inputs| == |shown| == |clip| && Chain(trace, inputs, pictures, settings, g)
      ensures trace[0] == old(Kept(trace[0].soft)) && trace[|clip|] == Kept(trace[|clip|].soft)
      ensures forall k | 0 <= k < |clip| :: Presents(inputs[k], clip[k], g.width, g.height)
      ensures forall k | 0 <= k < |clip| :: ReadFrom(shown[k], pictures[k], g.width, g.height)
      ensures forall k | 0 <= k < |clip| :: Denoised(pictures[k], inputs[k], settings, g.width, g.padHeight)
    {
      shown, trace, inputs, pictures := [], [Kept(g.Held(Avg2))], [], [];
      for k := 0 to |clip|
        invariant Valid() && frameNum == old(frameNum) + k
        invariant |inputs| == |shown| == k && Chain(trace, inputs, pictures, settings, g)
        invariant trace[0] == old(Kept(trace[0].soft)) && trace[k] == Kept(trace[k].soft)
        invariant forall j | 0 <= j < k :: Presents(inputs[j], clip[j], g.width, g.height)
        invariant forall j | 0 <= j < k :: ReadFrom(shown[j], pictures[j], g.width, g.height)
      {
        var planes;
        ghost var soft, input, picture;
        planes, soft, input, picture := PlayOne(clip[k], trace[k].soft);
        ChainGrows(trace, inputs, pictures, Kept(soft), input, picture, settings, g);
        shown, trace := shown + [planes], trace + [Kept(soft)];
        inputs, pictures := inputs + [input], pictures + [picture];
      }
      ChainDenoises(trace, inputs, pictures, settings, g);
    }
  }
}
