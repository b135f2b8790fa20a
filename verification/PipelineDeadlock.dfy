/** The wait of server and producer for each other, for sizes that are not safe as well. With one
    card it comes from a slot that is given back twice: its use count goes below zero, which counts
    as used, and headIn stays there. */
module PipelineDeadlock {
  import opened Ipc
  import opened Slots
  import opened Pipeline
  import opened PipelineProtocol
  import opened PipelineRing
  import opened PipelineSafety
  import opened PipelineRuns
  import opened PipelineProgress
  import InputRing

  // ----- What holds for all sizes -----

  /** Frames whose slot has been marked. */
  function MarkedCount(s: State): int {
    s.frameNum - if s.producer == Marking then 1 else 0
  }

  /** A slot that at most one frame has been put into is used just while that frame is out. */
  ghost predicate FirstUse(c: Config, s: State, x: nat)
    requires Shaped(c, s) && x < c.ringSize
  {
    x + c.ringSize >= MarkedCount(s) ==>
      s.ring.used[x] == if x < MarkedCount(s) && !Done(s.outputs, x) then 1 else 0
  }

  ghost predicate FirstUseInv(c: Config, s: State)
    requires Shaped(c, s)
  {
    forall x: nat | x < c.ringSize :: FirstUse(c, s, x)
  }

  /** When no frame is out, headIn is on a slot that counts as used, or it has just been put onto
      the tail. */
  ghost predicate HeadInv(c: Config, s: State)
    requires Shaped(c, s)
  {
    s.ring.headIn >= 0 && (forall g: nat :: !Live(s, g)) ==>
      || s.ring.used[s.ring.headIn] != 0
      || s.ring.headIn == Slot(s.frameNum, c.ringSize)
      || (s.frameNum > 0 && s.ring.headIn == Slot(s.frameNum - 1, c.ringSize))
  }

  ghost predicate LoneInv(c: Config, s: State) {
    Shaped(c, s) && FirstUseInv(c, s) && HeadInv(c, s)
  }

  lemma LoneOther(c: Config, s: State, s': State)
    requires LoneInv(c, s) && Shaped(c, s')
    requires s'.ring.used == s.ring.used && s'.ring.headIn == s.ring.headIn
    requires s'.frameNum == s.frameNum && s'.outputs == s.outputs && MarkedCount(s') == MarkedCount(s)
    ensures LoneInv(c, s')
  {
    forall x: nat | x < c.ringSize ensures FirstUse(c, s', x) {
      assert FirstUse(c, s, x);
    }
    assert forall g: nat :: Live(s', g) == Live(s, g);
  }

  lemma LoneDecode(c: Config, s: State, s': State)
    requires LoneInv(c, s) && Shaped(c, s') && s.producer != Marking && s'.producer == Marking
    requires s'.ring == s.ring && s'.frameNum == s.frameNum + 1 && s'.outputs == s.outputs
    requires !Done(s.outputs, s.frameNum)
    ensures LoneInv(c, s')
  {
    forall x: nat | x < c.ringSize ensures FirstUse(c, s', x) {
      assert FirstUse(c, s, x);
    }
    assert Live(s', s.frameNum);
  }

  /** The slot of a frame of a later lap has been marked before. */
  lemma {:induction false} LapsBack(g: nat, size: nat)
    requires size > 0
    ensures g >= size ==> Slot(g, size) + size <= g
  {
    if g >= size { LapsBack(g - size, size); }
  }

  lemma LoneMark(c: Config, s: State, s': State)
    requires LoneInv(c, s) && Shaped(c, s') && s.producer == Marking && s'.producer == Enqueueing && s.frameNum > 0
    requires s.ring.tailIn == Slot(s.frameNum - 1, c.ringSize) && !Done(s.outputs, s.frameNum - 1)
    requires s'.ring == s.ring.(used := s.ring.used[s.ring.tailIn := 1])
    requires s'.frameNum == s.frameNum && s'.outputs == s.outputs
    ensures LoneInv(c, s')
  {
    LapsBack(s.frameNum - 1, c.ringSize);
    forall x: nat | x < c.ringSize ensures FirstUse(c, s', x) {
      assert FirstUse(c, s, x);
    }
    assert Live(s', s.frameNum - 1);
  }

  lemma LoneFinish(c: Config, s: State, s': State, g0: nat)
    requires LoneInv(c, s) && OrderInv(c, s) && Shaped(c, s') && g0 < MarkedCount(s) && !Done(s.outputs, g0)
    requires s'.ring == InputRing.VideoFinished(s.ring, Slot(g0, c.ringSize))
    requires s'.frameNum == s.frameNum && MarkedCount(s') == MarkedCount(s)
    requires forall g: nat :: Done(s'.outputs, g) <==> Done(s.outputs, g) || g == g0
    ensures LoneInv(c, s')
  {
    InputRing.UsedAfter(s.ring, Slot(g0, c.ringSize));
    forall x: nat | x < c.ringSize ensures FirstUse(c, s', x) {
      assert FirstUse(c, s, x);
      FirstUseFinish(c, s, s', g0, x);
    }
    HeadFinish(c, s, s', Slot(g0, c.ringSize));
  }

  lemma HeadFinish(c: Config, s: State, s': State, index: int)
    requires Shaped(c, s) && OrderInv(c, s) && Shaped(c, s') && s'.frameNum == s.frameNum
    requires s'.ring == InputRing.VideoFinished(s.ring, index)
    ensures HeadInv(c, s')
  {
    InputRing.HeadAfter(s.ring, index);
    TailIsRecent(c, s);
  }

  lemma TailIsRecent(c: Config, s: State)
    requires c.Valid() && OrderInv(c, s)
    ensures s.ring.tailIn == Slot(s.frameNum, c.ringSize) ||
      (s.frameNum > 0 && s.ring.tailIn == Slot(s.frameNum - 1, c.ringSize))
  {
  }

  lemma FirstUseFinish(c: Config, s: State, s': State, g0: nat, x: nat)
    requires Shaped(c, s) && Shaped(c, s') && x < c.ringSize && FirstUse(c, s, x)
    requires g0 < MarkedCount(s) == MarkedCount(s') && !Done(s.outputs, g0)
    requires s'.ring.used == InputRing.Decrement(s.ring.used, Slot(g0, c.ringSize))
    requires Done(s'.outputs, x) <==> Done(s.outputs, x) || x == g0
    ensures FirstUse(c, s', x)
  {
    LapsBack(g0, c.ringSize);
  }

  lemma LoneStep(c: Config, s: State, a: Action)
    requires Inv(c, s) && LoneInv(c, s) && Enabled(c, s, a)
    ensures LoneInv(c, Apply(c, s, a))
  {
    var s' := Apply(c, s, a);
    if a == DecodeFrame {
      Decodes(c, s);
      FreshFrame(c, s, s.frameNum);
      LoneDecode(c, s, s');
    } else if a == Mark {
      Marks(c, s);
      FreshFrame(c, s, s.frameNum - 1);
      LoneMark(c, s, s');
    } else if a == Finish {
      LoneStepFinish(c, s);
    } else {
      LoneStepRest(c, s, a);
    }
  }

  lemma LoneStepFinish(c: Config, s: State)
    requires Inv(c, s) && LoneInv(c, s) && Enabled(c, s, Finish)
    ensures LoneInv(c, Apply(c, s, Finish))
  {
    FinishIsMarked(c, s);
    var o := Finishes(c, s);
    DoneNumsAdd(s.outputs, o);
    LoneFinish(c, s, Apply(c, s, Finish), Returned(s));
  }

  lemma LoneStepRest(c: Config, s: State, a: Action)
    requires Shaped(c, s) && LoneInv(c, s) && Enabled(c, s, a) && a != DecodeFrame && a != Mark && a != Finish
    ensures LoneInv(c, Apply(c, s, a))
  {
    if ByChild(a) { ChildLeaves(c, s, a); }
    else if ByServer(a) { ServerLeaves(c, s, a); }
    if a != Dequeue { HistoryStays(c, s, a); }
    LoneOther(c, s, Apply(c, s, a));
  }

  lemma LoneInit(c: Config)
    requires c.Valid()
    ensures LoneInv(c, Init(c))
  {
  }

  lemma {:induction false} PathKeepsLone(c: Config, s: State, acts: seq<Action>, t: State)
    requires Inv(c, s) && LoneInv(c, s) && Path(c, s, acts, t)
    ensures LoneInv(c, t)
    decreases |acts|
  {
    if acts != [] {
      InvStep(c, s, acts[0]);
      LoneStep(c, s, acts[0]);
      PathKeepsLone(c, Apply(c, s, acts[0]), acts[1..], t);
    }
  }

  lemma ReachableLone(c: Config, s: State)
    requires c.Valid() && Reachable(c, s)
    ensures Inv(c, s) && LoneInv(c, s)
  {
    var acts :| Path(c, Init(c), acts, s);
    InvInit(c);
    LoneInit(c);
    ReachableInv(c, s);
    PathKeepsLone(c, Init(c), acts, s);
  }

  // ----- No deadlock in less than two laps -----

  /** With one card, a file of less than two laps is too short for it, whatever the sizes. */
  lemma NoLoneDeadlock(c: Config, s: State)
    requires c.Valid() && Reachable(c, s) && Shaped(c, s)
    requires |Cards(c.capable)| <= 1 && c.length < 2 * c.ringSize - 1
    ensures !Deadlocked(s)
  {
    if Deadlocked(s) {
      ReachableLone(c, s);
      NothingLeft(c, s);
      TailIsNext(c, s);
      NotBlocked(c, s);
    }
  }

  /** The slot after the tail does not count as used, so headIn has no reason to be there. */
  lemma NotBlocked(c: Config, s: State)
    requires LoneInv(c, s) && s.producer == RingTest && (forall g: nat :: !Live(s, g))
    requires s.ring.tailIn == Slot(s.frameNum, c.ringSize) && s.frameNum < 2 * c.ringSize - 1
    ensures !InputRing.Blocked(s.ring)
  {
    var k, F := s.frameNum, c.ringSize;
    SlotNext(k, F);
    SlotInjective(k + 1, k, F);
    if k > 0 { SlotInjective(k + 1, k - 1, F); }
    var x := Slot(k + 1, F);
    assert x + F >= k;
    assert FirstUse(c, s, x);
    assert x < k ==> !Live(s, x);
  }

  // ----- The deadlock of a lone card -----

  /** The card has returned g frames, F - g are queued, and the producer holds frame F + 1. */
  ghost predicate Draining(c: Config, s: State, b: nat, g: nat) {
    && c.Valid() && Reachable(c, s) && Shaped(c, s) && Capable(c, b) && 1 <= g <= c.ringSize
    && s.producer == Enqueueing && s.frameNum == c.ringSize + 1 && s.ring.tailIn == 0
    && s.kernel == [] && s.server == Dequeueing(b) && s.children[b] == Waiting
    && |s.queue| == c.ringSize - g && |s.sent| == g && s.ring.used[0] == 0
  }

  /** A whole lap and one frame more are decoded before the first comes back. */
  lemma DrainStart(c: Config, b: nat) returns (t: State)
    requires c.Valid() && Capable(c, b) && c.ringSize < c.length && c.ringSize <= c.capacity + 1
    ensures Draining(c, t, b, 1)
  {
    var s := FillQueue(c, c.ringSize - 1);
    AllBoot(c, s, b);
    Front(c, s);
    var s1 := Engage(c, s, b, Nth(c, 0));
    InOrder(c, s);
    var s2 := PutDown(c, s1);
    assert s2.ring.tailIn == 0;
    var s3 := TakeUp(c, s2);
    t := Complete(c, s3, b);
  }

  lemma AllBoot(c: Config, s: State, b: nat)
    requires c.Valid() && Filled(c, s, 0, c.ringSize - 1) && Capable(c, b)
    ensures s.children[b] == Booting
  {
    var l := Cards(c.capable);
    var x :| 0 <= x < |l| && l[x] == b;
  }

  lemma DrainStep(c: Config, s: State, b: nat, g: nat) returns (t: State)
    requires Draining(c, s, b, g) && g < c.ringSize
    ensures Draining(c, t, b, g + 1)
  {
    Front(c, s);
    var s1 := Dispatch(c, s, b, Nth(c, g));
    t := Complete(c, s1, b);
  }

  lemma {:induction false} Drain(c: Config, b: nat, g: nat) returns (t: State)
    requires c.Valid() && Capable(c, b) && c.ringSize < c.length && c.ringSize <= c.capacity + 1 && 1 <= g <= c.ringSize
    ensures Draining(c, t, b, g)
  {
    if g == 1 {
      t := DrainStart(c, b);
    } else {
      var s := Drain(c, b, g - 1);
      t := DrainStep(c, s, b, g - 1);
    }
  }

  /** All k frames are back, and slot 0, where headIn is, has been given back once too often. */
  ghost predicate Overdrawn(c: Config, s: State, b: nat, k: nat) {
    && c.Valid() && Reachable(c, s) && Shaped(c, s) && Capable(c, b)
    && s.producer == RingTest && s.frameNum == k && s.queue == [] && s.kernel == []
    && s.server == Dequeueing(b) && s.children[b] == Waiting
    && s.ring.headIn == 0 && s.ring.used[0] == -1
  }

  /** Once a lap is drained, every slot is free. */
  lemma DrainedIsFree(c: Config, s: State, b: nat)
    requires Draining(c, s, b, c.ringSize) && |Cards(c.capable)| == 1
    ensures forall x | 0 <= x < c.ringSize :: s.ring.used[x] == 0
  {
    DrainedFacts(c, s, b);
    FirstLapIsFree(c, s);
  }

  lemma DrainedFacts(c: Config, s: State, b: nat)
    requires Draining(c, s, b, c.ringSize) && |Cards(c.capable)| == 1
    ensures FirstUseInv(c, s) && MarkedCount(s) == c.ringSize + 1 && DoneNums(s.outputs) == Numbers(c.ringSize)
  {
    ReachableLone(c, s);
    NoFlight(c, s, b);
  }

  lemma FirstLapIsFree(c: Config, s: State)
    requires Shaped(c, s) && FirstUseInv(c, s) && MarkedCount(s) == c.ringSize + 1
    requires DoneNums(s.outputs) == Numbers(c.ringSize)
    ensures forall x | 1 <= x < c.ringSize :: s.ring.used[x] == 0
  {
    forall x: nat | 1 <= x < c.ringSize ensures s.ring.used[x] == 0 {
      assert FirstUse(c, s, x);
      DrainedSlot(c, s, x);
    }
  }

  lemma DrainedSlot(c: Config, s: State, x: nat)
    requires Shaped(c, s) && 1 <= x < c.ringSize && FirstUse(c, s, x)
    requires MarkedCount(s) == c.ringSize + 1 && DoneNums(s.outputs) == Numbers(c.ringSize)
    ensures s.ring.used[x] == 0
  {
    assert x + 1 in Numbers(c.ringSize);
  }

  /** From anywhere, the scan finds slot 0 when it is the only one that counts as used. */
  lemma {:induction false} ScanFindsZero(u: seq<int>, i: int, steps: nat)
    requires |u| > 0 && -1 <= i < |u| && u[0] != 0 && forall x | 0 < x < |u| :: u[x] == 0
    requires i > 0 ==> steps >= |u| - i
    requires i < 0 ==> steps > 0
    ensures InputRing.Scan(u, i, steps) == 0
    decreases steps
  {
    if i != 0 { ScanFindsZero(u, NextSlot(i, |u|), steps - 1); }
  }

  lemma HeadFindsZero(r: InputRing.Ring)
    requires r.Valid() && forall x | 0 <= x < |r.used| :: r.used[x] == 0
    ensures InputRing.VideoFinished(r, 0).headIn == 0 && InputRing.VideoFinished(r, 0).used[0] == -1
  {
    ScanFindsZero(InputRing.Decrement(r.used, 0), r.headIn, |r.used|);
  }

  lemma OverdrawStart(c: Config, b: nat) returns (t: State)
    requires c.Valid() && Capable(c, b) && |Cards(c.capable)| == 1 && c.ringSize < c.length
    requires c.ringSize <= c.capacity + 1
    ensures Overdrawn(c, t, b, c.ringSize + 1)
  {
    var s := Drain(c, b, c.ringSize);
    DrainedIsFree(c, s, b);
    var s1 := PutDown(c, s);
    var f := RenderFrame(c.ringSize + 1, 0);
    assert s1.queue == [Frame(f)];
    var s2 := Dispatch(c, s1, b, f);
    t := Complete(c, s2, b);
    HeadFindsZero(s2.ring);
  }

  /** One frame more goes round, and headIn stays where it is. */
  lemma OverdrawStep(c: Config, s: State, b: nat, k: nat) returns (t: State)
    requires Overdrawn(c, s, b, k) && c.ringSize < k < c.length && k <= 2 * c.ringSize - 2
    ensures Overdrawn(c, t, b, k + 1)
  {
    SecondLap(c, s, k);
    var s1 := TakeUp(c, s);
    var s2 := PutDown(c, s1);
    var f := RenderFrame(k + 1, k - c.ringSize);
    assert s2.queue == [Frame(f)];
    var s3 := Dispatch(c, s2, b, f);
    t := Complete(c, s3, b);
  }

  lemma SecondLap(c: Config, s: State, k: nat)
    requires c.Valid() && Reachable(c, s) && s.producer == RingTest && s.frameNum == k
    requires c.ringSize <= k < 2 * c.ringSize
    ensures s.ring.tailIn == k - c.ringSize
  {
    InOrder(c, s);
  }

  lemma {:induction false} Overdraw(c: Config, b: nat, k: nat) returns (t: State)
    requires c.Valid() && Capable(c, b) && |Cards(c.capable)| == 1 && c.ringSize <= c.capacity + 1
    requires c.ringSize < k <= c.length && k <= 2 * c.ringSize - 1
    ensures Overdrawn(c, t, b, k)
    decreases k
  {
    if k == c.ringSize + 1 {
      t := OverdrawStart(c, b);
    } else {
      var s := Overdraw(c, b, k - 1);
      t := OverdrawStep(c, s, b, k - 1);
    }
  }

  lemma LoneDeadlockHappens(c: Config) returns (t: State)
    requires c.Valid() && |Cards(c.capable)| == 1 && c.ringSize <= c.capacity + 1 && c.length >= 2 * c.ringSize - 1
    ensures Reachable(c, t) && Shaped(c, t) && Deadlocked(t)
  {
    t := Overdraw(c, Cards(c.capable)[0], 2 * c.ringSize - 1);
    SecondLap(c, t, 2 * c.ringSize - 1);
  }

  // ----- All sizes -----

  /** Two cards and a file of a lap less one frame, or one card, a file of two laps less one frame, and a queue
      that together with the card can hold a whole lap. */
  predicate CanDeadlock(c: Config) {
    var m := |Cards(c.capable)|;
    || (m >= 2 && c.length >= c.ringSize - 1)
    || (m == 1 && c.ringSize <= c.capacity + 1 && c.length >= 2 * c.ringSize - 1)
  }

  lemma NeverDeadlocked(c: Config, s: State)
    requires c.Valid() && !CanDeadlock(c) && Reachable(c, s) && Shaped(c, s)
    ensures !Deadlocked(s)
  {
    if |Cards(c.capable)| == 0 {
      if Deadlocked(s) {
        ReachableInv(c, s);
        ServedIsCard(c, s);
      }
    } else if Safe(c) {
      NoDeadlock(c, s);
    } else {
      NoLoneDeadlock(c, s);
    }
  }

  /** For all sizes, the deadlock can be reached just when CanDeadlock says so. */
  lemma DeadlockIff(c: Config)
    requires c.Valid()
    ensures (exists s :: Reachable(c, s) && Shaped(c, s) && Deadlocked(s)) <==> CanDeadlock(c)
  {
    if !CanDeadlock(c) {
      forall s | Reachable(c, s) && Shaped(c, s) ensures !Deadlocked(s) {
        NeverDeadlocked(c, s);
      }
    } else if |Cards(c.capable)| >= 2 {
      var t := DeadlockHappens(c);
    } else {
      var t := LoneDeadlockHappens(c);
    }
  }

  /** Where it cannot be reached, every run that goes on as long as it can writes each frame of the
      file once; with safe sizes, from that frame's own picture. */
  lemma EveryRunCompletes(c: Config, s: State)
    requires c.Valid() && |Cards(c.capable)| >= 1 && !CanDeadlock(c)
    requires Reachable(c, s) && Shaped(c, s) && Stuck(c, s)
    ensures AllExited(s) && DoneNums(s.outputs) == Numbers(c.length) && |s.outputs| == c.length
    ensures OncePerFrame(s.outputs)
    ensures Safe(c) ==> forall k | 0 <= k < |s.outputs| :: s.outputs[k].image == s.outputs[k].frame.frameNum
  {
    StuckMeansDone(c, s);
    NeverDeadlocked(c, s);
    AllExitedMeansAllWritten(c, s);
    if Safe(c) { OutputsAreRight(c, s); }
  }
}
