/** What safe sizes promise: no frame is overwritten while it is out, frames that are out at the
    same time never share a slot, and every picture written is that of its own frame. */
module PipelineSafety {
  import opened Ipc
  import opened Slots
  import opened Pipeline
  import opened PipelineProtocol
  import opened PipelineRing
  import InputRing

  /** f is on the queue, or handed out and not yet taken back. */
  ghost predicate Out(s: State, f: RenderFrame) {
    Frame(f) in s.queue || f in s.flight.Values
  }

  /** Every frame that is out still has its own picture in its input slot. */
  ghost predicate Intact(s: State) {
    forall f | Out(s, f) :: Get(s.inSlots, f.indexIn) == f.frameNum
  }

  lemma {:induction false} PendingAt(c: Config, a: nat, b: nat, f: RenderFrame)
    requires c.Valid() && a <= b && Frame(f) in Pending(c, a, b)
    ensures a < f.frameNum <= b && f == Nth(c, f.frameNum - 1)
  {
    if Frame(f) != Frame(Nth(c, b - 1)) { PendingAt(c, a, b - 1, f); }
  }

  /** A frame that is out is live, and its slot follows from its number. */
  lemma OutIsLive(c: Config, s: State, f: RenderFrame)
    requires Inv(c, s) && Out(s, f)
    ensures 1 <= f.frameNum && f == Nth(c, f.frameNum - 1) && Live(s, f.frameNum - 1)
    ensures Marked(s, f.frameNum - 1)
  {
    if f in s.flight.Values {
      var i :| i in s.flight && s.flight[i] == f;
      assert IsSent(c, s, s.flight[i]);
      assert f.frameNum in FlightNums(s.flight);
    } else {
      PendingAt(c, |s.sent|, Enqueued(s), f);
      NotYetDone(c, s);
    }
  }

  lemma SafeIsIntact(c: Config, s: State)
    requires c.Valid() && Safe(c) && Reachable(c, s)
    ensures Intact(s)
  {
    var base := ReachableRing(c, s);
    forall f | Out(s, f) ensures Get(s.inSlots, f.indexIn) == f.frameNum {
      OutIsLive(c, s, f);
    }
  }

  /** Frames that are out lie in different slots, all marked used, and none of them in the slot
      that the producer is about to decode into. */
  lemma SafeKeepsApart(c: Config, s: State)
    requires c.Valid() && Safe(c) && Reachable(c, s)
    ensures Shaped(c, s)
    ensures forall f, f' | Out(s, f) && Out(s, f') && f.indexIn == f'.indexIn :: f == f'
    ensures forall f | Out(s, f) :: 0 <= f.indexIn < c.ringSize && s.ring.used[f.indexIn] == 1
    ensures Enabled(c, s, DecodeFrame) ==> forall f | Out(s, f) :: f.indexIn != s.ring.tailIn
  {
    var base := ReachableRing(c, s);
    forall f, f' | Out(s, f) && Out(s, f') && f.indexIn == f'.indexIn ensures f == f' {
      OutIsLive(c, s, f);
      OutIsLive(c, s, f');
      SlotInjective(f.frameNum - 1, f'.frameNum - 1, c.ringSize);
    }
    forall f | Out(s, f) ensures 0 <= f.indexIn < c.ringSize && s.ring.used[f.indexIn] == 1 {
      OutIsLive(c, s, f);
    }
    if Enabled(c, s, DecodeFrame) {
      DecodeWithinLap(c, s, base);
      forall f | Out(s, f) ensures f.indexIn != s.ring.tailIn {
        OutIsLive(c, s, f);
      }
    }
  }

  /** k steps on from headIn. */
  function Ahead(head: nat, k: nat, size: nat): nat
    requires head < size
  {
    Slot(head + k, size)
  }

  /** x is at most span steps on from head. */
  ghost predicate InWindow(head: nat, span: nat, size: nat, x: int)
    requires head < size
  {
    exists k: nat :: k <= span && Ahead(head, k, size) == x
  }

  /** Once a frame has come back, the used slots lie in the cyclic window from headIn to tailIn;
      the slot of tailIn itself is used only between the producer's mark and its advance. */
  lemma UsedLiesInWindow(c: Config, s: State) returns (span: nat)
    requires c.Valid() && Safe(c) && Reachable(c, s) && s.ring.headIn >= 0
    ensures Shaped(c, s)
    ensures s.ring.tailIn == Ahead(s.ring.headIn, span, c.ringSize)
    ensures c.length > c.ringSize ==> span < c.ringSize
    ensures forall x | 0 <= x < c.ringSize && s.ring.used[x] != 0 :: InWindow(s.ring.headIn, span, c.ringSize, x)
    ensures c.length > c.ringSize && s.ring.used[s.ring.tailIn] != 0 ==>
      s.producer == Enqueueing || s.producer == Advancing
  {
    var base := ReachableRing(c, s);
    span := Advanced(s) - base;
    SpanIsShort(c, s, base);
    forall x | 0 <= x < c.ringSize && s.ring.used[x] != 0 ensures InWindow(s.ring.headIn, span, c.ringSize, x) {
      UsedAhead(c, s, base, x);
    }
    if c.length > c.ringSize { TailUsed(c, s, base); }
  }

  lemma SpanIsShort(c: Config, s: State, base: nat)
    requires Shaped(c, s) && WindowInv(c, s, base) && OrderInv(c, s) && s.ring.headIn >= 0
    ensures base <= Advanced(s) && (c.length > c.ringSize ==> Advanced(s) - base < c.ringSize)
    ensures s.ring.tailIn == Ahead(s.ring.headIn, Advanced(s) - base, c.ringSize)
  {
    SlotShift(base, Advanced(s) - base, c.ringSize);
  }

  lemma UsedAhead(c: Config, s: State, base: nat, x: int)
    requires Shaped(c, s) && UsedInv(c, s) && WindowInv(c, s, base) && OrderInv(c, s) && s.ring.headIn >= 0
    requires 0 <= x < c.ringSize && s.ring.used[x] != 0
    ensures InWindow(s.ring.headIn, Advanced(s) - base, c.ringSize, x)
  {
    var g: nat :| Marked(s, g) && Slot(g, c.ringSize) == x;
    LiveIsAhead(c, s, base, g);
    SlotInWindow(base, g, Advanced(s) - base, c.ringSize);
  }

  lemma LiveIsAhead(c: Config, s: State, base: nat, g: nat)
    requires Shaped(c, s) && WindowInv(c, s, base) && OrderInv(c, s) && Live(s, g)
    ensures base <= g <= Advanced(s)
  {
  }

  lemma SlotInWindow(base: nat, g: nat, span: int, size: nat)
    requires size > 0 && base <= g <= base + span
    ensures InWindow(Slot(base, size), span, size, Slot(g, size))
  {
    var k: nat := g - base;
    SlotShift(base, k, size);
    assert base + k == g && k <= span;
    assert Ahead(Slot(base, size), k, size) == Slot(g, size);
  }

  lemma TailUsed(c: Config, s: State, base: nat)
    requires RingInv(c, s, base) && OrderInv(c, s) && s.ring.headIn >= 0 && c.length > c.ringSize
    ensures s.ring.used[s.ring.tailIn] != 0 ==> s.producer == Enqueueing || s.producer == Advancing
  {
    if s.ring.used[s.ring.tailIn] != 0 {
      var g: nat :| Marked(s, g) && Slot(g, c.ringSize) == s.ring.tailIn;
      assert Live(s, g);
      SlotInjective(g, Advanced(s), c.ringSize);
    }
  }

  lemma {:induction false} SlotShift(a: nat, k: nat, size: nat)
    requires size > 0
    ensures Slot(a + k, size) == Slot(Slot(a, size) + k, size)
  {
    if a >= size { SlotShift(a - size, k, size); }
  }

  // ----- Pictures -----

  ghost predicate ImageInv(s: State) {
    && (forall i | 0 <= i < |s.children| && s.children[i].Rendering? ::
          s.children[i].image == s.children[i].frame.frameNum)
    && (forall k | 0 <= k < |s.kernel| && s.kernel[k].body.FrameDone? :: Delivered(s, s.kernel[k].body.frame))
    && (s.server.Finishing? ==> Delivered(s, s.server.frame))
    && (forall k | 0 <= k < |s.outputs| :: s.outputs[k].image == s.outputs[k].frame.frameNum)
  }

  /** f's denoised picture is in its output slot. */
  predicate Delivered(s: State, f: RenderFrame) {
    Get(s.outSlots, f.indexIn) == f.frameNum
  }

  /** Rendering one frame does not touch the output slot of another one. */
  lemma RenderedApart(c: Config, s: State, base: nat, i: nat, j: nat)
    requires Inv(c, s) && WindowInv(c, s, base) && i in s.flight && j in s.flight && i != j
    ensures s.flight[i].indexIn != s.flight[j].indexIn
  {
    FlightIsLive(c, s, base, i);
    FlightIsLive(c, s, base, j);
    FlightDiffers(c, s, i, j);
    SlotInjective(s.flight[i].frameNum - 1, s.flight[j].frameNum - 1, c.ringSize);
  }

  lemma FlightIsLive(c: Config, s: State, base: nat, i: nat)
    requires Inv(c, s) && WindowInv(c, s, base) && i in s.flight
    ensures base + 1 <= s.flight[i].frameNum <= base + c.ringSize && s.flight[i] == Nth(c, s.flight[i].frameNum - 1)
  {
    OutIsLive(c, s, s.flight[i]);
  }

  lemma FlightDiffers(c: Config, s: State, i: nat, j: nat)
    requires Inv(c, s) && i in s.flight && j in s.flight && i != j
    ensures s.flight[i].frameNum != s.flight[j].frameNum
  {
  }

  /** What child i has rendered is its frame, and nobody else's frame is in that output slot. */
  lemma RenderedIsOwn(c: Config, s: State, base: nat, i: nat)
    requires Inv(c, s) && WindowInv(c, s, base) && i < |s.children| && s.children[i].Rendering?
    ensures 0 <= s.children[i].frame.indexIn < c.ringSize
    ensures forall k | 0 <= k < |s.kernel| && s.kernel[k].body.FrameDone? ::
      s.kernel[k].body.frame.indexIn != s.children[i].frame.indexIn
    ensures s.server.Finishing? ==> s.server.frame.indexIn != s.children[i].frame.indexIn
  {
    assert ChildInv(c, s, i);
    FlightIsLive(c, s, base, i);
    assert Tokens(s, i) == 1;
    forall k | 0 <= k < |s.kernel| && s.kernel[k].body.FrameDone?
      ensures s.kernel[k].body.frame.indexIn != s.children[i].frame.indexIn
    {
      CountPositive(s.kernel, k);
      assert MessageInv(c, s, s.kernel[k]);
      RenderedApart(c, s, base, i, s.kernel[k].child);
    }
    if s.server.Finishing? {
      RenderedApart(c, s, base, i, s.server.child);
    }
  }

  lemma ImageStepRendered(c: Config, s: State, i: nat)
    requires Shaped(c, s) && ImageInv(s) && Enabled(c, s, ChildRendered(i))
    requires 0 <= s.children[i].frame.indexIn < c.ringSize
    requires forall k | 0 <= k < |s.kernel| && s.kernel[k].body.FrameDone? ::
      s.kernel[k].body.frame.indexIn != s.children[i].frame.indexIn
    requires s.server.Finishing? ==> s.server.frame.indexIn != s.children[i].frame.indexIn
    ensures ImageInv(Apply(c, s, ChildRendered(i)))
  {
    var s' := Apply(c, s, ChildRendered(i));
    forall k | 0 <= k < |s'.kernel| && s'.kernel[k].body.FrameDone? ensures Delivered(s', s'.kernel[k].body.frame) {
      if k < |s.kernel| { assert Delivered(s, s.kernel[k].body.frame); }
    }
  }

  /** A frame that child i is sent is still in its slot when the child takes the message. */
  lemma ReceivedIsIntact(c: Config, s: State, base: nat, i: nat, k: nat)
    requires Inv(c, s) && RingInv(c, s, base) && k < |s.kernel| && s.kernel[k].child == i
    ensures var b := s.kernel[k].body; b.ChildRenderFrame? ==> Get(s.inSlots, b.frame.indexIn) == b.frame.frameNum
  {
    assert MessageInv(c, s, s.kernel[k]);
    if s.kernel[k].body.ChildRenderFrame? {
      OutIsLive(c, s, s.flight[i]);
    }
  }

  lemma ImageTake(s: State, k: nat)
    requires ImageInv(s) && k < |s.kernel|
    ensures ImageInv(s.(kernel := RemoveAt(s.kernel, k)))
  {
    var taken := s.(kernel := RemoveAt(s.kernel, k));
    forall j | 0 <= j < |taken.kernel| && taken.kernel[j].body.FrameDone?
      ensures Delivered(taken, taken.kernel[j].body.frame)
    {
      assert taken.kernel[j] == s.kernel[if j < k then j else j + 1];
    }
  }

  lemma ImageStepReceive(c: Config, s: State, base: nat, i: nat)
    requires Inv(c, s) && RingInv(c, s, base) && ImageInv(s) && Enabled(c, s, ChildReceive(i))
    ensures ImageInv(Apply(c, s, ChildReceive(i)))
  {
    var k := Receives(c, s, i);
    ReceivedIsIntact(c, s, base, i, k);
    ImageTake(s, k);
    ImageAccept(s.(kernel := RemoveAt(s.kernel, k)), i, s.kernel[k].body);
  }

  lemma ImageAccept(s: State, i: nat, body: Body)
    requires ImageInv(s) && i < |s.children|
    requires body.ChildRenderFrame? ==> Get(s.inSlots, body.frame.indexIn) == body.frame.frameNum
    ensures ImageInv(Accept(s, i, body))
  {
  }

  lemma ImageStepServer(c: Config, s: State, a: Action)
    requires Shaped(c, s) && ImageInv(s) && Enabled(c, s, a) && ByServer(a)
    ensures ImageInv(Apply(c, s, a))
  {
  }

  lemma ImageStepOther(c: Config, s: State, a: Action)
    requires Shaped(c, s) && ImageInv(s) && Enabled(c, s, a) && (ByProducer(a) || a.ChildBoot? || a.ChildConfigured?)
    ensures ImageInv(Apply(c, s, a))
  {
  }

  lemma ImageStep(c: Config, s: State, a: Action, base: nat)
    requires Inv(c, s) && RingInv(c, s, base) && ImageInv(s) && Enabled(c, s, a)
    ensures ImageInv(Apply(c, s, a))
  {
    if a.ChildRendered? {
      RenderedIsOwn(c, s, base, a.i);
      ImageStepRendered(c, s, a.i);
    } else if a.ChildReceive? {
      ImageStepReceive(c, s, base, a.i);
    }
    else if ByServer(a) { ImageStepServer(c, s, a); }
    else { ImageStepOther(c, s, a); }
  }

  lemma {:induction false} PathKeepsImages(c: Config, s: State, acts: seq<Action>, t: State, base: nat)
    requires Inv(c, s) && RingInv(c, s, base) && ImageInv(s) && Path(c, s, acts, t) && Safe(c)
    ensures ImageInv(t)
    decreases |acts|
  {
    if acts != [] {
      InvStep(c, s, acts[0]);
      ImageStep(c, s, acts[0], base);
      var b := RingStep(c, s, acts[0], base);
      PathKeepsImages(c, Apply(c, s, acts[0]), acts[1..], t, b);
    }
  }

  /** Every picture that videoOut writes is the denoised picture of the frame it is written for. */
  lemma OutputsAreRight(c: Config, s: State)
    requires c.Valid() && Safe(c) && Reachable(c, s)
    ensures forall k | 0 <= k < |s.outputs| :: s.outputs[k].image == s.outputs[k].frame.frameNum
  {
    var acts :| Path(c, Init(c), acts, s);
    InvInit(c);
    RingInit(c);
    PathKeepsImages(c, Init(c), acts, s, 0);
  }
}
