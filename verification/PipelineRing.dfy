/** When the slot ring keeps frames apart: the invariant that the sizes decide. */
module PipelineRing {
  import opened Ipc
  import opened Slots
  import opened Pipeline
  import opened PipelineProtocol
  import InputRing

  /** The capable cards, in order. */
  function Cards(capable: seq<bool>): (l: seq<nat>)
    ensures forall k | 0 <= k < |l| :: l[k] < |capable| && capable[l[k]]
    ensures forall j, k | 0 <= j < k < |l| :: l[j] < l[k]
    ensures forall i: nat | i < |capable| && capable[i] :: i in l
  {
    if |capable| == 0 then []
    else
      var n := |capable| - 1;
      var l := Cards(capable[..n]);
      if capable[n] then l + [n] else l
  }

  /** The sizes for which no frame is ever overwritten too early: the file fits in the ring, or
      the ring is longer than what fits on the queue, in the hands of the cards and in the hand
      of the producer. With one card the ring may be just as long as that. */
  predicate Safe(c: Config) {
    var m := |Cards(c.capable)|;
    c.length <= c.ringSize || c.capacity + 1 + m < c.ringSize || (m <= 1 && c.capacity + 1 + m <= c.ringSize)
  }

  lemma {:induction false} KeysBound(keys: set<nat>, l: seq<nat>)
    requires forall k | k in keys :: k in l
    ensures |keys| <= |l|
  {
    if |l| > 0 {
      var last := l[|l| - 1];
      KeysBound(keys - {last}, l[..|l| - 1]);
      assert keys <= (keys - {last}) + {last};
      assert |keys| <= |(keys - {last}) + {last}| by { SubsetSize(keys, (keys - {last}) + {last}); }
    } else {
      assert keys == {};
    }
  }

  lemma SubsetSize(a: set<nat>, b: set<nat>)
    requires a <= b
    ensures |a| <= |b|
  {
    assert b == a + (b - a);
  }

  /** No more frames are in flight than there are capable cards. */
  lemma FlightBound(c: Config, s: State)
    requires Inv(c, s)
    ensures |s.flight| <= |Cards(c.capable)|
  {
    assert |s.flight| == |s.flight.Keys|;
    KeysBound(s.flight.Keys, Cards(c.capable));
  }

  // ----- The invariant -----

  ghost predicate Done(outputs: seq<Output>, g: nat) {
    g + 1 in DoneNums(outputs)
  }

  /** Frame g, counted from 0, is decoded and not yet taken back. */
  ghost predicate Live(s: State, g: nat) {
    g < s.frameNum && !Done(s.outputs, g)
  }

  /** ... and its slot has been marked used. */
  ghost predicate Marked(s: State, g: nat) {
    Live(s, g) && (s.producer == Marking ==> g + 1 < s.frameNum)
  }

  predicate PastRingTest(p: Producer) {
    p == Decoding || p == Marking || p == Enqueueing || p == Advancing
  }

  ghost predicate UsedInv(c: Config, s: State)
    requires Shaped(c, s)
  {
    && (forall g: nat | Marked(s, g) :: s.ring.used[Slot(g, c.ringSize)] == 1)
    && (forall x | 0 <= x < c.ringSize && s.ring.used[x] != 0 ::
          exists g: nat :: Marked(s, g) && Slot(g, c.ringSize) == x)
  }

  /** `base` is the frame whose slot headIn is. */
  ghost predicate WindowInv(c: Config, s: State, base: nat)
    requires Shaped(c, s)
  {
    && (forall g: nat | Live(s, g) :: base <= g < base + c.ringSize)
    && (if s.ring.headIn == -1 then base == 0 && s.outputs == []
        else s.ring.headIn == Slot(base, c.ringSize) && base <= Advanced(s))
    && (s.ring.headIn >= 0 && c.length > c.ringSize ==>
          Advanced(s) - base <= c.ringSize - (if PastRingTest(s.producer) then 2 else 1))
    && (s.ring.headIn >= 0 && (forall g: nat :: !Live(s, g)) ==> s.frameNum - base <= 1)
  }

  /** Every live frame's slot holds its picture. */
  ghost predicate IntactInv(c: Config, s: State)
    requires Shaped(c, s)
  {
    forall g: nat | Live(s, g) :: s.inSlots[Slot(g, c.ringSize)] == g + 1
  }

  ghost predicate RingInv(c: Config, s: State, base: nat) {
    Shaped(c, s) && UsedInv(c, s) && WindowInv(c, s, base) && IntactInv(c, s)
  }

  /** While no frame has come back, what is out is bounded by the queue and the cards. */
  lemma StartBound(c: Config, s: State)
    requires Inv(c, s) && s.outputs == []
    ensures Enqueued(s) <= c.capacity + |Cards(c.capable)|
  {
    FlightBound(c, s);
  }

  lemma RingStepOther(c: Config, s: State, base: nat, s': State)
    requires Shaped(c, s) && Shaped(c, s') && RingInv(c, s, base)
    requires s'.ring == s.ring && s'.inSlots == s.inSlots && s'.frameNum == s.frameNum && s'.outputs == s.outputs
    requires Advanced(s') == Advanced(s)
    requires s'.producer == Marking <==> s.producer == Marking
    requires PastRingTest(s'.producer) && s.ring.headIn >= 0 && c.length > c.ringSize ==>
      PastRingTest(s.producer) || Advanced(s) - base <= c.ringSize - 2
    ensures RingInv(c, s', base)
  {
    assert forall g: nat :: Live(s', g) == Live(s, g) && Marked(s', g) == Marked(s, g);
  }

  lemma RingStepPass(c: Config, s: State, base: nat)
    requires Inv(c, s) && RingInv(c, s, base) && Enabled(c, s, PassRing)
    ensures RingInv(c, Apply(c, s, PassRing), base)
  {
    if s.ring.headIn >= 0 && Advanced(s) - base == c.ringSize - 1 { FullRingBlocks(c, s, base); }
    RingStepOther(c, s, base, Apply(c, s, PassRing));
  }

  /** The ring test sees a full lap. */
  lemma FullRingBlocks(c: Config, s: State, base: nat)
    requires Shaped(c, s) && OrderInv(c, s)
    requires s.ring.headIn == Slot(base, c.ringSize) && Advanced(s) - base == c.ringSize - 1
    ensures InputRing.Blocked(s.ring)
  {
    SlotNext(Advanced(s), c.ringSize);
    assert Slot(base + c.ringSize, c.ringSize) == Slot(base, c.ringSize);
  }

  /** There is room for one more frame before the lap is full. */
  lemma RoomForOne(c: Config, s: State, base: nat)
    requires Inv(c, s) && WindowInv(c, s, base) && s.producer == Decoding && s.frameNum < c.length && Safe(c)
    ensures base <= s.frameNum < base + c.ringSize && s.ring.tailIn == Slot(s.frameNum, c.ringSize)
  {
    TailIsNext(c, s);
    if s.ring.headIn == -1 {
      StartBound(c, s);
      RoomAtStart(c, s.frameNum);
    } else {
      RoomLater(c, s, base);
    }
  }

  lemma TailIsNext(c: Config, s: State)
    requires c.Valid() && OrderInv(c, s) && (s.producer == Decoding || s.producer == RingTest)
    ensures s.frameNum == Enqueued(s) == Advanced(s) <= c.length && s.ring.tailIn == Slot(s.frameNum, c.ringSize)
  {
  }

  lemma RoomAtStart(c: Config, n: nat)
    requires n < c.length && n <= c.capacity + |Cards(c.capable)| && Safe(c)
    ensures n < c.ringSize
  {
  }

  lemma RoomLater(c: Config, s: State, base: nat)
    requires Shaped(c, s) && WindowInv(c, s, base) && s.producer == Decoding && s.frameNum < c.length
    requires s.ring.headIn >= 0
    ensures base <= s.frameNum < base + c.ringSize
  {
  }

  /** The slot that is decoded into is not that of a live frame. */
  lemma DecodeWithinLap(c: Config, s: State, base: nat)
    requires Inv(c, s) && WindowInv(c, s, base) && Enabled(c, s, DecodeFrame) && Safe(c)
    ensures base <= s.frameNum < base + c.ringSize
    ensures forall g: nat | Live(s, g) :: Slot(g, c.ringSize) != s.ring.tailIn
  {
    RoomForOne(c, s, base);
    LapIsFree(c, s, base);
  }

  lemma LapIsFree(c: Config, s: State, base: nat)
    requires Shaped(c, s) && WindowInv(c, s, base) && base <= s.frameNum < base + c.ringSize
    ensures forall g: nat | Live(s, g) :: Slot(g, c.ringSize) != Slot(s.frameNum, c.ringSize)
  {
    forall g: nat | Live(s, g) ensures Slot(g, c.ringSize) != Slot(s.frameNum, c.ringSize) {
      SlotInjective(g, s.frameNum, c.ringSize);
    }
  }

  lemma RingStepDecode(c: Config, s: State, base: nat)
    requires Inv(c, s) && RingInv(c, s, base) && Enabled(c, s, DecodeFrame) && Safe(c)
    ensures RingInv(c, Apply(c, s, DecodeFrame), base)
  {
    Decodes(c, s);
    FreshFrame(c, s, s.frameNum);
    RoomForOne(c, s, base);
    RingDecoded(c, s, base, Apply(c, s, DecodeFrame));
  }

  lemma Decodes(c: Config, s: State)
    requires Shaped(c, s) && Enabled(c, s, DecodeFrame)
    ensures var s' := Apply(c, s, DecodeFrame);
      && s.producer == Decoding && s.frameNum < c.length && s'.producer == Marking
      && s'.ring == s.ring && s'.frameNum == s.frameNum + 1 && s'.outputs == s.outputs
      && s'.inSlots == s.inSlots[s.ring.tailIn := s.frameNum + 1]
  {
  }

  lemma Marks(c: Config, s: State)
    requires Shaped(c, s) && OrderInv(c, s) && Enabled(c, s, Mark)
    ensures s.frameNum > 0 && s.ring.tailIn == Slot(s.frameNum - 1, c.ringSize)
    ensures var s' := Apply(c, s, Mark);
      && s.producer == Marking && s'.producer == Enqueueing
      && s'.ring == s.ring.(used := s.ring.used[s.ring.tailIn := 1])
      && s'.frameNum == s.frameNum && s'.outputs == s.outputs && s'.inSlots == s.inSlots
  {
  }

  lemma FreshFrame(c: Config, s: State, g: int)
    requires Inv(c, s) && Enqueued(s) <= g
    ensures g >= 0 && !Done(s.outputs, g)
  {
    NotYetDone(c, s);
  }

  lemma RingDecoded(c: Config, s: State, base: nat, s': State)
    requires RingInv(c, s, base) && Shaped(c, s') && s.producer == Decoding && s'.producer == Marking
    requires s'.ring == s.ring && s'.frameNum == s.frameNum + 1 && s'.outputs == s.outputs
    requires s'.inSlots == s.inSlots[s.ring.tailIn := s.frameNum + 1]
    requires base <= s.frameNum < base + c.ringSize && s.ring.tailIn == Slot(s.frameNum, c.ringSize)
    requires !Done(s.outputs, s.frameNum)
    ensures RingInv(c, s', base)
  {
    assert forall g: nat :: Live(s', g) <==> Live(s, g) || g == s.frameNum;
    assert forall g: nat :: Marked(s', g) == Marked(s, g);
    LapIsFree(c, s, base);
    assert UsedInv(c, s');
    assert WindowInv(c, s', base) by { assert Live(s', s.frameNum); }
    assert IntactInv(c, s');
  }

  /** Frames not handed out yet are not done. */
  lemma NotYetDone(c: Config, s: State)
    requires Inv(c, s)
    ensures forall g: nat | g >= |s.sent| :: !Done(s.outputs, g)
  {
    assert DoneNums(s.outputs) <= Numbers(|s.sent|);
  }

  lemma RingStepMark(c: Config, s: State, base: nat)
    requires Inv(c, s) && RingInv(c, s, base) && Enabled(c, s, Mark)
    ensures RingInv(c, Apply(c, s, Mark), base)
  {
    Marks(c, s);
    FreshFrame(c, s, s.frameNum - 1);
    RingMarked(c, s, base, Apply(c, s, Mark));
  }

  lemma RingMarked(c: Config, s: State, base: nat, s': State)
    requires RingInv(c, s, base) && Shaped(c, s') && s.producer == Marking && s'.producer == Enqueueing
    requires s.frameNum > 0 && s.ring.tailIn == Slot(s.frameNum - 1, c.ringSize) && !Done(s.outputs, s.frameNum - 1)
    requires s'.ring == s.ring.(used := s.ring.used[s.ring.tailIn := 1])
    requires s'.frameNum == s.frameNum && s'.outputs == s.outputs && s'.inSlots == s.inSlots
    ensures RingInv(c, s', base)
  {
    var g0 := s.frameNum - 1;
    assert forall g: nat :: Live(s', g) == Live(s, g);
    assert forall g: nat :: Marked(s', g) <==> Marked(s, g) || g == g0;
    assert UsedInv(c, s') by {
      assert Marked(s', g0);
      forall x | 0 <= x < c.ringSize && s'.ring.used[x] != 0
        ensures exists g: nat :: Marked(s', g) && Slot(g, c.ringSize) == x {
        if x != s.ring.tailIn {
          var g: nat :| Marked(s, g) && Slot(g, c.ringSize) == x;
          assert Marked(s', g);
        }
      }
    }
  }

  lemma RingStepEnqueue(c: Config, s: State, base: nat)
    requires Inv(c, s) && RingInv(c, s, base) && Enabled(c, s, Enqueue)
    ensures RingInv(c, Apply(c, s, Enqueue), base)
  {
    RingStepOther(c, s, base, Apply(c, s, Enqueue));
  }

  lemma RingStepAdvance(c: Config, s: State, base: nat)
    requires Inv(c, s) && RingInv(c, s, base) && Enabled(c, s, Advance)
    ensures RingInv(c, Apply(c, s, Advance), base)
  {
    RingAdvanced(c, s, base, Apply(c, s, Advance));
  }

  lemma RingAdvanced(c: Config, s: State, base: nat, s': State)
    requires RingInv(c, s, base) && Shaped(c, s') && s.producer == Advancing && s'.producer == RingTest
    requires s'.ring.used == s.ring.used && s'.ring.headIn == s.ring.headIn
    requires s'.frameNum == s.frameNum && s'.outputs == s.outputs && s'.inSlots == s.inSlots
    ensures RingInv(c, s', base)
  {
    assert forall g: nat :: Live(s', g) == Live(s, g) && Marked(s', g) == Marked(s, g);
  }

  // ----- A frame comes back -----

  /** The frame the server is about to take back. */
  function Returned(s: State): int {
    if s.server.Finishing? then s.server.frame.frameNum - 1 else 0
  }

  lemma FinishIsMarked(c: Config, s: State)
    requires Inv(c, s) && s.server.Finishing?
    ensures 0 <= Returned(s) < |s.sent| && s.server.frame == Nth(c, Returned(s)) && Marked(s, Returned(s))
  {
    var i, f := s.server.child, s.server.frame;
    assert i in s.flight && s.flight[i] == f && IsSent(c, s, f);
    assert f.frameNum in FlightNums(s.flight);
  }

  lemma Finishes(c: Config, s: State) returns (o: Output)
    requires Shaped(c, s) && Enabled(c, s, Finish)
    ensures s.server.Finishing? && o.frame == s.server.frame
    ensures var s' := Apply(c, s, Finish);
      s'.outputs == s.outputs + [o] && s'.frameNum == s.frameNum && s'.producer == s.producer
    ensures Apply(c, s, Finish).ring == InputRing.VideoFinished(s.ring, s.server.frame.indexIn)
  {
    o := Output(s.server.frame, Get(s.outSlots, s.server.frame.indexIn));
  }

  lemma FinishRemovesOne(c: Config, s: State)
    requires Inv(c, s) && Enabled(c, s, Finish)
    ensures 0 <= Returned(s) < |s.sent| && s.server.frame == Nth(c, Returned(s)) && Marked(s, Returned(s))
    ensures forall g: nat :: Live(Apply(c, s, Finish), g) <==> Live(s, g) && g != Returned(s)
    ensures forall g: nat :: Marked(Apply(c, s, Finish), g) <==> Marked(s, g) && g != Returned(s)
  {
    FinishIsMarked(c, s);
    var o := Finishes(c, s);
    OneLess(s, Apply(c, s, Finish), o, Returned(s));
  }

  lemma OneLess(s: State, s': State, o: Output, g0: nat)
    requires s'.outputs == s.outputs + [o] && s'.frameNum == s.frameNum && s'.producer == s.producer
    requires o.frame.frameNum == g0 + 1
    ensures forall g: nat :: Live(s', g) <==> Live(s, g) && g != g0
    ensures forall g: nat :: Marked(s', g) <==> Marked(s, g) && g != g0
  {
    DoneNumsAdd(s.outputs, o);
  }

  lemma FinishUsed(c: Config, s: State, base: nat)
    requires Inv(c, s) && RingInv(c, s, base) && Enabled(c, s, Finish)
    ensures UsedInv(c, Apply(c, s, Finish))
  {
    FinishRemovesOne(c, s);
    var o := Finishes(c, s);
    InputRing.UsedAfter(s.ring, s.server.frame.indexIn);
    UsedWithout(c, s, base, Apply(c, s, Finish), Returned(s));
  }

  lemma UsedWithout(c: Config, s: State, base: nat, s': State, g0: nat)
    requires Shaped(c, s) && Shaped(c, s') && UsedInv(c, s) && WindowInv(c, s, base) && Marked(s, g0)
    requires s'.ring.used == InputRing.Decrement(s.ring.used, Slot(g0, c.ringSize))
    requires forall g: nat :: Marked(s', g) <==> Marked(s, g) && g != g0
    ensures UsedInv(c, s')
  {
    forall g: nat | Marked(s', g) ensures s'.ring.used[Slot(g, c.ringSize)] == 1 {
      assert Live(s, g) && Live(s, g0);
      SlotInjective(g, g0, c.ringSize);
    }
    forall x | 0 <= x < c.ringSize && s'.ring.used[x] != 0
      ensures exists g: nat :: Marked(s', g) && Slot(g, c.ringSize) == x {
      assert s.ring.used[Slot(g0, c.ringSize)] == 1;
      var g: nat :| Marked(s, g) && Slot(g, c.ringSize) == x;
      assert Marked(s', g);
    }
  }

  lemma LapOf(c: Config, s: State, s': State, base: nat)
    requires Shaped(c, s) && Shaped(c, s') && WindowInv(c, s, base) && UsedInv(c, s')
    requires 0 <= Advanced(s) && s.frameNum <= Advanced(s) + 1
    requires forall g: nat :: Live(s', g) ==> Live(s, g)
    ensures InputRing.Lap(s'.ring.used, base, Advanced(s))
  {
    var u := s'.ring.used;
    forall x | 0 <= x < |u| && u[x] != 0
      ensures exists g: nat :: base <= g <= Advanced(s) && g < base + |u| && Slot(g, |u|) == x
    {
      var g: nat :| Marked(s', g) && Slot(g, c.ringSize) == x;
      assert Live(s, g);
    }
  }

  /** Where the head goes: forward over free slots, onto a used slot or onto the tail. */
  lemma FinishHead(c: Config, s: State, base: nat) returns (base': nat)
    requires Inv(c, s) && RingInv(c, s, base) && Enabled(c, s, Finish)
    ensures base <= base' <= Advanced(s)
    ensures Apply(c, s, Finish).ring.headIn == Slot(base', c.ringSize)
    ensures forall g: nat | Live(Apply(c, s, Finish), g) :: base' <= g
    ensures base' == Advanced(s) || Live(Apply(c, s, Finish), base')
    ensures (forall g: nat :: !Live(Apply(c, s, Finish), g)) ==> base' == Advanced(s)
  {
    FinishRemovesOne(c, s);
    FinishUsed(c, s, base);
    base' := HeadMoves(c, s, Apply(c, s, Finish), s.server.frame.indexIn, base);
  }

  lemma HeadMoves(c: Config, s: State, s': State, index: int, base: nat) returns (base': nat)
    requires Shaped(c, s) && Shaped(c, s') && OrderInv(c, s) && WindowInv(c, s, base) && UsedInv(c, s')
    requires s'.ring == InputRing.VideoFinished(s.ring, index)
    requires Advanced(s') == Advanced(s)
    requires forall g: nat :: Live(s', g) ==> Live(s, g)
    ensures base <= base' <= Advanced(s)
    ensures s'.ring.headIn == Slot(base', c.ringSize)
    ensures forall g: nat | Live(s', g) :: base' <= g
    ensures base' == Advanced(s) || Live(s', base')
  {
    LapOf(c, s, s', base);
    assert s'.ring.used == InputRing.Decrement(s.ring.used, index);
    base' := InputRing.ReclaimKeepsLap(s.ring, index, base, Advanced(s));
    NoneBehind(c, s, s', base, base');
  }

  lemma NoneBehind(c: Config, s: State, s': State, base: nat, base': nat)
    requires Shaped(c, s) && Shaped(c, s') && WindowInv(c, s, base) && UsedInv(c, s')
    requires Advanced(s') == Advanced(s) && base <= base' <= Advanced(s)
    requires forall g: nat :: Live(s', g) ==> Live(s, g)
    requires forall g | base <= g < base' && g < base + c.ringSize :: s'.ring.used[Slot(g, c.ringSize)] == 0
    requires base' == Advanced(s) || s'.ring.used[Slot(base', c.ringSize)] != 0
    requires base' < base + c.ringSize || base' == Advanced(s)
    ensures forall g: nat | Live(s', g) :: base' <= g
    ensures base' == Advanced(s) || Live(s', base')
  {
    forall g: nat | Live(s', g) ensures base' <= g {
      assert Live(s, g);
      if Marked(s', g) { assert s'.ring.used[Slot(g, c.ringSize)] == 1; }
    }
    if base' != Advanced(s) {
      var g: nat :| Marked(s', g) && Slot(g, c.ringSize) == Slot(base', c.ringSize);
      assert Live(s, g);
      SlotInjective(g, base', c.ringSize);
    }
  }

  lemma RingStepFinish(c: Config, s: State, base: nat) returns (base': nat)
    requires Inv(c, s) && RingInv(c, s, base) && Enabled(c, s, Finish) && Safe(c)
    ensures RingInv(c, Apply(c, s, Finish), base')
  {
    FinishRemovesOne(c, s);
    FinishUsed(c, s, base);
    base' := FinishHead(c, s, base);
    if s.ring.headIn == -1 { HandOver(c, s, base'); }
  }

  /** The first frame to come back leaves the producer room to finish what it has begun. */
  lemma HandOver(c: Config, s: State, base': nat)
    requires Inv(c, s) && Enabled(c, s, Finish) && Safe(c) && s.outputs == []
    requires base' == Advanced(s) || Live(Apply(c, s, Finish), base')
    ensures c.length > c.ringSize ==> Advanced(s) - base' <= c.ringSize - 2
  {
    StartBound(c, s);
    FinishRemovesOne(c, s);
    if |Cards(c.capable)| <= 1 {
      FlightBound(c, s);
      assert Returned(s) == 0;
    }
  }

  // ----- Every run -----

  lemma RingInit(c: Config)
    requires c.Valid()
    ensures RingInv(c, Init(c), 0)
  {
  }

  lemma RingStepRest(c: Config, s: State, a: Action, base: nat)
    requires Shaped(c, s) && RingInv(c, s, base) && Enabled(c, s, a)
    requires a == EndOfVideo || a == EnqueueEnd || ByChild(a) || (ByServer(a) && a != Finish)
    ensures RingInv(c, Apply(c, s, a), base)
  {
    if ByChild(a) { ChildLeaves(c, s, a); }
    else if ByServer(a) { ServerLeaves(c, s, a); }
    if a != Dequeue { HistoryStays(c, s, a); }
    RingStepOther(c, s, base, Apply(c, s, a));
  }

  lemma RingStep(c: Config, s: State, a: Action, base: nat) returns (base': nat)
    requires Inv(c, s) && RingInv(c, s, base) && Enabled(c, s, a) && Safe(c)
    ensures RingInv(c, Apply(c, s, a), base')
  {
    base' := base;
    match a
    case PassRing => RingStepPass(c, s, base);
    case DecodeFrame => RingStepDecode(c, s, base);
    case Mark => RingStepMark(c, s, base);
    case Enqueue => RingStepEnqueue(c, s, base);
    case Advance => RingStepAdvance(c, s, base);
    case Finish => base' := RingStepFinish(c, s, base);
    case _ => RingStepRest(c, s, a, base);
  }

  lemma {:induction false} PathKeepsRing(c: Config, s: State, acts: seq<Action>, t: State, base: nat)
    returns (base': nat)
    requires Inv(c, s) && RingInv(c, s, base) && Path(c, s, acts, t) && Safe(c)
    ensures RingInv(c, t, base')
    decreases |acts|
  {
    if acts == [] {
      base' := base;
    } else {
      InvStep(c, s, acts[0]);
      var b := RingStep(c, s, acts[0], base);
      base' := PathKeepsRing(c, Apply(c, s, acts[0]), acts[1..], t, b);
    }
  }

  lemma ReachableRing(c: Config, s: State) returns (base: nat)
    requires c.Valid() && Reachable(c, s) && Safe(c)
    ensures Inv(c, s) && RingInv(c, s, base)
  {
    var acts :| Path(c, Init(c), acts, s);
    InvInit(c);
    RingInit(c);
    ReachableInv(c, s);
    base := PathKeepsRing(c, Init(c), acts, s, 0);
  }
}
