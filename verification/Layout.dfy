/** The shared-memory segment for decoded and denoised pictures: how many slots it gets and where
    their planes lie (initVideoIn in src/video_in.c, do_child in src/render_child.c). */
module Layout {
  const MIN_FRAMEBUFFER := 10

  /** The (int) cast of an unsigned long. */
  function ToInt32(x: nat): int {
    var y := x % 0x1_0000_0000;
    if y >= 0x8000_0000 then y - 0x1_0000_0000 else y
  }

  /** frameCountIn and frameCountOut; the program exits when fewer than MIN_FRAMEBUFFER frames fit. */
  datatype Sizing = TooSmall | Sized(frameCountIn: nat, frameCountOut: nat)

  function SlotCount(numChildren: nat, maxFrames: nat): nat {
    var wanted := if numChildren + 6 < MIN_FRAMEBUFFER then MIN_FRAMEBUFFER else numChildren + 6;
    if wanted > maxFrames / 2 then maxFrames / 2 else wanted
  }

  function SizeRing(shmmax: nat, frameSize: nat, numChildren: nat): Sizing
    requires frameSize > 0
  {
    var maxFrames := ToInt32(shmmax / frameSize);
    if maxFrames < MIN_FRAMEBUFFER then TooSmall
    else Sized(SlotCount(numChildren, maxFrames), SlotCount(numChildren, maxFrames))
  }

  /** All slots together fit in the segment, there are as many output as input slots, and never
      fewer than five of either. */
  lemma SlotsFit(shmmax: nat, frameSize: nat, numChildren: nat)
    requires frameSize > 0 && SizeRing(shmmax, frameSize, numChildren).Sized?
    ensures var s := SizeRing(shmmax, frameSize, numChildren);
      s.frameCountIn == s.frameCountOut && 5 <= s.frameCountIn &&
      frameSize * (s.frameCountIn + s.frameCountOut) <= shmmax
  {
    var s := SizeRing(shmmax, frameSize, numChildren);
    var most := shmmax / frameSize;
    assert s.frameCountIn + s.frameCountOut <= most;
    Scale(s.frameCountIn + s.frameCountOut, most, frameSize);
  }

  lemma Scale(a: nat, b: nat, k: nat)
    requires a <= b
    ensures k * a <= k * b
  {
  }

  /** How many slots of each kind are wanted. */
  function Wanted(numChildren: nat): nat {
    if numChildren > 4 then numChildren + 6 else 10
  }

  /** The program starts just when ten frames fit, except that the cast makes some huge numbers of
      frames look small or negative. */
  lemma StartsIffTenFit(shmmax: nat, frameSize: nat, numChildren: nat)
    requires frameSize > 0
    ensures var most := shmmax / frameSize;
      && (SizeRing(shmmax, frameSize, numChildren).Sized? <==> 10 <= most % 0x1_0000_0000 < 0x8000_0000)
      && (most < 0x8000_0000 ==>
           (SizeRing(shmmax, frameSize, numChildren).Sized? <==> 10 * frameSize <= shmmax))
  {
    FitsIff(shmmax, frameSize, 10);
  }

  lemma FitsIff(size: nat, frameSize: nat, n: nat)
    requires frameSize > 0
    ensures n * frameSize <= size <==> n <= size / frameSize
  {
    var most := size / frameSize;
    assert most * frameSize <= size < most * frameSize + frameSize;
    if n <= most {
      Scale(n, most, frameSize);
    } else {
      Scale(most + 1, n, frameSize);
    }
  }

  /** A segment for 2^31 frames is refused as too small for ten. */
  lemma HugeSegmentIsRefused(frameSize: nat, numChildren: nat)
    requires frameSize > 0
    ensures SizeRing(0x8000_0000 * frameSize, frameSize, numChildren) == TooSmall
  {
    FitsIff(0x8000_0000 * frameSize, frameSize, 0x8000_0000);
    FitsIff(0x8000_0000 * frameSize, frameSize, 0x8000_0001);
  }

  /** There are as many slots as are wanted, or one more of each kind would not fit; only a cast that
      loses bits of the number of frames can leave fewer. */
  lemma RingIsLargest(shmmax: nat, frameSize: nat, numChildren: nat)
    requires frameSize > 0 && SizeRing(shmmax, frameSize, numChildren).Sized?
    ensures var n, most := SizeRing(shmmax, frameSize, numChildren).frameCountIn, shmmax / frameSize;
      && n <= Wanted(numChildren)
      && (n == Wanted(numChildren) || 2 * frameSize * (n + 1) > shmmax <==>
          most < 0x8000_0000 || 2 * Wanted(numChildren) <= most % 0x1_0000_0000)
  {
    var n := SizeRing(shmmax, frameSize, numChildren).frameCountIn;
    FitsIff(shmmax, frameSize, 2 * (n + 1));
    assert 2 * frameSize * (n + 1) == (2 * (n + 1)) * frameSize;
  }

  // ----- Bytes -----

  /** Bytes start, ..., end - 1 of the segment. */
  datatype Range = Range(start: int, end: int) {
    predicate Within(r: Range) {
      r.start <= start && end <= r.end
    }
    predicate Apart(r: Range) {
      end <= r.start || r.end <= start
    }
  }

  /** Slot k of the segment; the output slots come after the input slots. */
  function SlotBytes(frameSize: nat, k: nat): Range {
    Range(frameSize * k, frameSize * k + frameSize)
  }

  lemma SlotStart(frameSize: nat, first: nat, k: nat)
    ensures SlotBytes(frameSize, first + k).start == frameSize * first + frameSize * k
  {
  }

  /** Different slots share no byte, and each lies in the segment. */
  lemma SlotsApart(frameSize: nat, frameCount: nat, j: nat, k: nat)
    requires j < frameCount && k < frameCount
    ensures SlotBytes(frameSize, j).Within(Range(0, frameSize * frameCount))
    ensures j != k ==> SlotBytes(frameSize, j).Apart(SlotBytes(frameSize, k))
  {
    Scale(j + 1, frameCount, frameSize);
    assert frameSize * (j + 1) == frameSize * j + frameSize;
    assert frameSize * (k + 1) == frameSize * k + frameSize;
    if j < k { Scale(j + 1, k, frameSize); }
    if k < j { Scale(k + 1, j, frameSize); }
  }

  /** The three planes of a picture. */
  datatype Planes = Planes(y: Range, u: Range, v: Range)

  /** Where ffmpeg lays out a YUV420P picture: luma, then two planes of half the width and height, rounded up. */
  function DecoderPlanes(slot: Range, cols: nat, rows: nat): Planes {
    var luma, chroma := cols * rows, ((cols + 1) / 2) * ((rows + 1) / 2);
    var u := slot.start + luma;
    Planes(Range(slot.start, u), Range(u, u + chroma), Range(u + chroma, u + chroma + chroma))
  }

  /** The size that avpicture_get_size reports for it. */
  function FrameSize(cols: nat, rows: nat): nat {
    cols * rows + 2 * (((cols + 1) / 2) * ((rows + 1) / 2))
  }

  lemma FrameSizePositive(cols: nat, rows: nat)
    requires cols > 0 && rows > 0
    ensures FrameSize(cols, rows) > 0
  {
    assert cols * rows > 0;
  }

  /** What a child reads or writes in a slot. */
  function ChildPlanes(slot: Range, width: nat, height: nat): Planes {
    var stride := width * height;
    var u := slot.start + stride;
    var v := u + stride / 4;
    var chroma := (width / 2) * (height / 2);
    Planes(Range(slot.start, u), Range(u, u + chroma), Range(v, v + chroma))
  }

  lemma Halves(w: nat, h: nat)
    ensures (w / 2) * (h / 2) <= (w * h) / 4
    ensures (w * h) / 4 <= ((w + 1) / 2) * ((h + 1) / 2)
    ensures w % 2 == 0 && h % 2 == 0 ==> (w * h) / 4 == (w / 2) * (h / 2)
    ensures w >= 1 && h >= 1 && (w % 2 == 1 || h % 2 == 1) ==> (w * h) / 4 < ((w + 1) / 2) * ((h + 1) / 2)
  {
    var a, b := w / 2, h / 2;
    var i, j := w % 2, h % 2;
    Expand(a, b, i, j);
    assert (w + 1) / 2 == a + i && (h + 1) / 2 == b + j;
  }

  /** (2a + i)(2b + j) and (a + i)(b + j), where i and j are 0 or 1. */
  lemma Expand(a: nat, b: nat, i: nat, j: nat)
    requires i <= 1 && j <= 1
    ensures var p, q := (2 * a + i) * (2 * b + j), (a + i) * (b + j);
      && a * b <= p / 4 <= q
      && (i == 0 && j == 0 ==> p / 4 == a * b)
      && (2 * a + i >= 1 && 2 * b + j >= 1 && (i == 1 || j == 1) ==> p / 4 < q)
  {
    var n := a * b;
    assert (2 * a) * (2 * b) == 4 * n by { Double(a, 2 * b); Double(b, a); }
    if i == 0 && j == 0 {
    } else if i == 0 {
      assert (2 * a) * (2 * b + 1) == 4 * n + 2 * a;
      assert a * (b + 1) == n + a;
    } else if j == 0 {
      assert (2 * a + 1) * (2 * b) == 4 * n + 2 * b;
      assert (a + 1) * b == n + b;
    } else {
      assert (2 * a + 1) * (2 * b + 1) == 4 * n + 2 * a + 2 * b + 1;
      assert (a + 1) * (b + 1) == n + a + b + 1;
    }
  }

  lemma Double(a: nat, k: nat)
    ensures (2 * a) * k == 2 * (a * k)
  {
  }

  /** For every size the child stays within its slot and its planes do not overlap. They are the
      planes the decoder filled just when both dimensions are even. */
  lemma ChildStaysInSlot(slot: Range, width: nat, height: nat)
    requires width >= 1 && height >= 1 && slot.end == slot.start + FrameSize(width, height)
    ensures var p := ChildPlanes(slot, width, height);
      && p.y.Within(slot) && p.u.Within(slot) && p.v.Within(slot)
      && p.y.Apart(p.u) && p.y.Apart(p.v) && p.u.Apart(p.v)
    ensures ChildPlanes(slot, width, height) == DecoderPlanes(slot, width, height)
       <==> width % 2 == 0 && height % 2 == 0
  {
    Halves(width, height);
    PlanesFit(slot, width * height, (width / 2) * (height / 2), ((width + 1) / 2) * ((height + 1) / 2));
    PlanesMatch(slot, width, height);
  }

  lemma PlanesMatch(slot: Range, width: nat, height: nat)
    requires width >= 1 && height >= 1
    ensures ChildPlanes(slot, width, height) == DecoderPlanes(slot, width, height)
       <==> width % 2 == 0 && height % 2 == 0
  {
    Halves(width, height);
    var low, mid, high := (width / 2) * (height / 2), (width * height) / 4, ((width + 1) / 2) * ((height + 1) / 2);
    assert ChildPlanes(slot, width, height) == DecoderPlanes(slot, width, height) <==> low == high && mid == high;
    if width % 2 == 0 && height % 2 == 0 { assert (width + 1) / 2 == width / 2 && (height + 1) / 2 == height / 2; }
  }

  lemma PlanesFit(slot: Range, luma: nat, low: nat, high: nat)
    requires low <= luma / 4 <= high && slot.end == slot.start + luma + 2 * high
    ensures var u, v := slot.start + luma, slot.start + luma + luma / 4;
      && Range(slot.start, u).Within(slot) && Range(u, u + low).Within(slot) && Range(v, v + low).Within(slot)
      && Range(u, u + low).Apart(Range(v, v + low))
  {
  }

  /** Any index of an input slot is also that of an output slot: the address a child computes is
      that of slot frameCountIn + indexIn, it lies in the segment, and no input slot reaches it. */
  lemma OutputSlotIsSound(shmmax: nat, frameSize: nat, numChildren: nat, indexIn: nat, other: nat)
    requires frameSize > 0 && SizeRing(shmmax, frameSize, numChildren).Sized?
    requires var n := SizeRing(shmmax, frameSize, numChildren).frameCountIn; indexIn < n && other < n
    ensures var n := SizeRing(shmmax, frameSize, numChildren).frameCountIn;
      var slot := SlotBytes(frameSize, n + indexIn);
      && frameSize * n + frameSize * indexIn == slot.start
      && slot.Within(Range(0, shmmax))
      && slot.Apart(SlotBytes(frameSize, other))
      && (other != indexIn ==> slot.Apart(SlotBytes(frameSize, n + other)))
  {
    SlotsFit(shmmax, frameSize, numChildren);
    SlotsOfHalf(shmmax, frameSize, SizeRing(shmmax, frameSize, numChildren).frameCountIn, indexIn, other);
  }

  lemma SlotsOfHalf(shmmax: nat, frameSize: nat, n: nat, indexIn: nat, other: nat)
    requires frameSize * (n + n) <= shmmax && indexIn < n && other < n
    ensures var slot := SlotBytes(frameSize, n + indexIn);
      && frameSize * n + frameSize * indexIn == slot.start
      && slot.Within(Range(0, shmmax))
      && slot.Apart(SlotBytes(frameSize, other))
      && (other != indexIn ==> slot.Apart(SlotBytes(frameSize, n + other)))
  {
    SlotStart(frameSize, n, indexIn);
    SlotsApart(frameSize, n + n, n + indexIn, other);
    SlotsApart(frameSize, n + n, n + indexIn, n + other);
  }

  /** avpicture_fill for one picture after the other, from slot `first` on. */
  method FillStarts(av: array<nat>, frameSize: nat, first: nat)
    modifies av
    ensures forall i | 0 <= i < av.Length :: av[i] == SlotBytes(frameSize, i + first).start
  {
    for i := 0 to av.Length
      invariant forall k | 0 <= k < i :: av[k] == SlotBytes(frameSize, k + first).start
    {
      av[i] := frameSize * (i + first);
    }
  }

  method LimitSlots(numChildren: nat, maxFrames: nat) returns (count: nat)
    ensures count == SlotCount(numChildren, maxFrames)
  {
    count := numChildren + 6;
    if count < MIN_FRAMEBUFFER { count := MIN_FRAMEBUFFER; }
    if count > maxFrames / 2 { count := maxFrames / 2; }
  }

  method CountSlots(shmmax: nat, frameSize: nat, numChildren: nat) returns (sizing: Sizing)
    requires frameSize > 0
    ensures sizing == SizeRing(shmmax, frameSize, numChildren)
  {
    var maxFrames := ToInt32(shmmax / frameSize);
    if maxFrames < MIN_FRAMEBUFFER {
      return TooSmall;
    }
    var countIn := LimitSlots(numChildren, maxFrames);
    var countOut := LimitSlots(numChildren, maxFrames);
    sizing := Sized(countIn, countOut);
  }

  /** The parts of sharedMem_t that describe the segment. */
  class SharedMem {
    var cols: nat
    var rows: nat
    var frameSize: nat
    var frameCountIn: nat
    var frameCountOut: nat
    var frameCount: nat
    var offsetIn: nat
    var offsetOut: nat

    /** Sizes the ring and lists where each picture starts. */
    method InitVideoIn(shmmax: nat, c: nat, r: nat, numChildren: nat)
      returns (ok: bool, avFrameIn: array<nat>, avFrameOut: array<nat>)
      requires c > 0 && r > 0
      modifies this
      ensures cols == c && rows == r && frameSize == FrameSize(c, r) > 0
      ensures ok <==> SizeRing(shmmax, frameSize, numChildren).Sized?
      ensures ok ==> SizeRing(shmmax, frameSize, numChildren) == Sized(frameCountIn, frameCountOut)
      ensures ok ==> frameCount == frameCountIn + frameCountOut
      ensures ok ==> offsetIn == 0 && offsetOut == frameSize * frameCountIn
      ensures ok ==> avFrameIn.Length == frameCountIn && avFrameOut.Length == frameCountOut
      ensures ok ==> forall i | 0 <= i < frameCountIn :: avFrameIn[i] == SlotBytes(frameSize, i + 0).start
      ensures ok ==> forall i | 0 <= i < frameCountOut :: avFrameOut[i] == SlotBytes(frameSize, i + frameCountIn).start
    {
      cols, rows, frameSize := c, r, FrameSize(c, r);
      FrameSizePositive(c, r);
      avFrameIn, avFrameOut := new nat[0], new nat[0];
      var sizing := CountSlots(shmmax, frameSize, numChildren);
      if sizing.TooSmall? {
        return false, avFrameIn, avFrameOut;
      }
      frameCountIn, frameCountOut := sizing.frameCountIn, sizing.frameCountOut;
      frameCount := frameCountIn + frameCountOut;
      offsetIn, offsetOut := 0, frameSize * frameCountIn;
      avFrameIn := new nat[frameCountIn];
      avFrameOut := new nat[frameCountOut];
      FillStarts(avFrameIn, frameSize, 0);
      FillStarts(avFrameOut, frameSize, frameCountIn);
      ok := true;
    }
  }
}
