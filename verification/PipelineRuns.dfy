/** Runs that go wrong, for all sizes that let them: a frame overwritten while it is out, and
    the server and the producer each waiting for the other. */
module PipelineRuns {
  import opened Ipc
  import opened Slots
  import opened Pipeline
  import opened PipelineProtocol
  import opened PipelineRing
  import opened PipelineSafety
  import InputRing

  // ----- Pieces of runs -----

  lemma Do(c: Config, s: State, a: Action) returns (t: State)
    requires c.Valid() && Reachable(c, s) && Shaped(c, s) && Enabled(c, s, a)
    ensures t == Apply(c, s, a) && Reachable(c, t) && Shaped(c, t)
  {
    ReachableStep(c, s, a);
    t := Apply(c, s, a);
  }

  lemma InOrder(c: Config, s: State)
    requires c.Valid() && Reachable(c, s)
    ensures Shaped(c, s) && OrderInv(c, s)
  {
    ReachableInv(c, s);
  }

  lemma Front(c: Config, s: State)
    requires c.Valid() && Reachable(c, s) && |s.sent| < Enqueued(s)
    ensures s.queue != [] && s.queue[0] == Frame(Nth(c, |s.sent|))
  {
    InOrder(c, s);
    PendingHead(c, |s.sent|, Enqueued(s));
  }

  /** Neither the server nor child i finds a message of its own. */
  predicate Idle(kernel: seq<Message>, i: nat) {
    Select(kernel, Q_MSG_ALL_SERVER) == -1 && Select(kernel, Q_MSG_CLIENT_START + i) == -1
  }

  /** A message that waits for another child disturbs nobody. */
  lemma OtherWaits(m: Message, i: nat)
    requires m.body.ChildRenderFrame? && m.child != i
    ensures Idle([m], i)
  {
    assert [m][..0] == [];
  }

  /** The server takes the message that was sent last. */
  lemma ServerTakes(c: Config, s: State, rest: seq<Message>, m: Message) returns (t: State)
    requires c.Valid() && Reachable(c, s) && Shaped(c, s) && s.server == Receiving
    requires s.kernel == rest + [m] && Select(rest, Q_MSG_ALL_SERVER) == -1
    requires m.body.Ready? || m.body.RenderReady? || m.body.FrameDone?
    ensures Reachable(c, t) && Shaped(c, t) && t == Serve(c, s.(kernel := rest), m)
  {
    SelectLast(rest, m, Q_MSG_ALL_SERVER);
    t := Do(c, s, ServeMessage);
    assert t == ServeNext(c, s, |rest|);
  }

  /** Its child takes the message that was sent last. */
  lemma ChildTakes(c: Config, s: State, rest: seq<Message>, m: Message) returns (t: State)
    requires c.Valid() && Reachable(c, s) && Shaped(c, s) && m.child < |s.children| && s.children[m.child] == Waiting
    requires s.kernel == rest + [m] && Select(rest, Q_MSG_CLIENT_START + m.child) == -1
    requires m.body.ChildExit? || m.body.ChildRenderMode? || m.body.ChildRenderFrame?
    ensures Reachable(c, t) && Shaped(c, t) && t == Accept(s.(kernel := rest), m.child, m.body)
  {
    LastIsOwn(s.kernel, rest, m);
    t := ChildTakesAt(c, s, |rest|, rest, m);
  }

  lemma ChildTakesAt(c: Config, s: State, k: nat, rest: seq<Message>, m: Message) returns (t: State)
    requires c.Valid() && Reachable(c, s) && Shaped(c, s) && m.child < |s.children| && s.children[m.child] == Waiting
    requires k < |s.kernel| && s.kernel[k] == m && RemoveAt(s.kernel, k) == rest
    requires Select(s.kernel, Q_MSG_CLIENT_START + m.child) == k
    ensures Reachable(c, t) && Shaped(c, t) && t == Accept(s.(kernel := rest), m.child, m.body)
  {
    OwnIsTaken(c, s, k, m.child);
    t := Do(c, s, ChildReceive(m.child));
  }

  lemma LastIsOwn(q: seq<Message>, rest: seq<Message>, m: Message)
    requires q == rest + [m] && Select(rest, Q_MSG_CLIENT_START + m.child) == -1
    requires m.body.ChildExit? || m.body.ChildRenderMode? || m.body.ChildRenderFrame?
    ensures Select(q, Q_MSG_CLIENT_START + m.child) == |rest|
    ensures q[|rest|] == m && RemoveAt(q, |rest|) == rest
  {
    SelectLast(rest, m, Q_MSG_CLIENT_START + m.child);
  }

  lemma OwnIsTaken(c: Config, s: State, k: nat, i: nat)
    requires Shaped(c, s) && i < |s.children| && s.children[i] == Waiting
    requires k < |s.kernel| && Select(s.kernel, Q_MSG_CLIENT_START + i) == k
    ensures Enabled(c, s, ChildReceive(i))
    ensures Apply(c, s, ChildReceive(i)) == Accept(s.(kernel := RemoveAt(s.kernel, k)), i, s.kernel[k].body)
  {
  }

  /** Child i starts, reports, and is told the rendering mode. */
  lemma BootUp(c: Config, s: State, i: nat) returns (t: State)
    requires c.Valid() && Reachable(c, s) && Shaped(c, s) && Capable(c, i)
    requires Idle(s.kernel, i) && s.server == Receiving && s.children[i] == Booting
    ensures Reachable(c, t) && Shaped(c, t) && t == s.(children := s.children[i := Configuring])
  {
    var q := s.kernel;
    var s1 := Do(c, s, ChildBoot(i));
    assert s1 == s.(children := s.children[i := Waiting], kernel := q + [Message(i, Ready)]);
    var s2 := ServerTakes(c, s1, q, Message(i, Ready));
    assert s2 == s.(children := s.children[i := Waiting], kernel := q + [Message(i, ChildRenderMode)]);
    t := ChildTakes(c, s2, q, Message(i, ChildRenderMode));
    assert t.children == s.children[i := Configuring];
  }

  /** ... after which the server turns to fetching a frame for it. */
  lemma Handshake(c: Config, s: State, i: nat) returns (t: State)
    requires c.Valid() && Reachable(c, s) && Shaped(c, s) && Capable(c, i)
    requires Idle(s.kernel, i) && s.server == Receiving && s.children[i] == Booting
    ensures Reachable(c, t) && Shaped(c, t) && t == s.(children := s.children[i := Waiting], server := Dequeueing(i))
  {
    var s1 := BootUp(c, s, i);
    var s2 := Do(c, s1, ChildConfigured(i));
    assert s2.children == s.children[i := Waiting];
    assert s2 == s.(children := s.children[i := Waiting], kernel := s.kernel + [Message(i, RenderReady)]);
    t := ServerTakes(c, s2, s.kernel, Message(i, RenderReady));
  }

  /** The next frame is sent to child i. */
  lemma HandOut(c: Config, s: State, i: nat, f: RenderFrame) returns (t: State)
    requires c.Valid() && Reachable(c, s) && Shaped(c, s) && s.server == Dequeueing(i)
    requires s.queue != [] && s.queue[0] == Frame(f)
    ensures Reachable(c, t) && Shaped(c, t)
    ensures t == s.(queue := s.queue[1..], server := Receiving, kernel := s.kernel + [Message(i, ChildRenderFrame(f))],
                    sent := s.sent + [f], flight := s.flight[i := f])
  {
    t := Do(c, s, Dequeue);
  }

  /** The next frame goes to child i, which begins to render it. */
  lemma Dispatch(c: Config, s: State, i: nat, f: RenderFrame) returns (t: State)
    requires c.Valid() && Reachable(c, s) && Shaped(c, s) && i < |s.children|
    requires Idle(s.kernel, i) && s.server == Dequeueing(i) && s.children[i] == Waiting
    requires s.queue != [] && s.queue[0] == Frame(f)
    ensures Reachable(c, t) && Shaped(c, t)
    ensures t == s.(queue := s.queue[1..], server := Receiving, sent := s.sent + [f], flight := s.flight[i := f],
                    children := s.children[i := Rendering(f, Get(s.inSlots, f.indexIn))])
  {
    var s1 := HandOut(c, s, i, f);
    t := ChildTakes(c, s1, s.kernel, Message(i, ChildRenderFrame(f)));
  }

  /** Child i starts up and gets the next frame. */
  lemma Engage(c: Config, s: State, i: nat, f: RenderFrame) returns (t: State)
    requires c.Valid() && Reachable(c, s) && Shaped(c, s) && Capable(c, i)
    requires Idle(s.kernel, i) && s.server == Receiving && s.children[i] == Booting
    requires s.queue != [] && s.queue[0] == Frame(f)
    ensures Reachable(c, t) && Shaped(c, t)
    ensures t == s.(queue := s.queue[1..], sent := s.sent + [f], flight := s.flight[i := f],
                    children := s.children[i := Rendering(f, Get(s.inSlots, f.indexIn))])
  {
    var s1 := Handshake(c, s, i);
    t := Dispatch(c, s1, i, f);
    assert t.children == s.children[i := t.children[i]];
  }

  /** Child i is done with its frame, and the server writes it and takes it back. */
  lemma Complete(c: Config, s: State, i: nat) returns (t: State)
    requires c.Valid() && Reachable(c, s) && Shaped(c, s) && i < |s.children|
    requires Idle(s.kernel, i) && s.server == Receiving && s.children[i].Rendering?
    ensures Reachable(c, t) && Shaped(c, t)
    ensures t.server == Dequeueing(i) && t.kernel == s.kernel && t.children == s.children[i := Waiting]
    ensures t.ring == InputRing.VideoFinished(s.ring, s.children[i].frame.indexIn)
    ensures t.queue == s.queue && t.sent == s.sent && t.producer == s.producer && t.frameNum == s.frameNum
    ensures t.flight == s.flight - {i}
    ensures 0 <= s.children[i].frame.indexIn < c.ringSize ==>
      t.outputs == s.outputs + [Output(s.children[i].frame, s.children[i].image)]
  {
    var f := s.children[i].frame;
    var s1 := Do(c, s, ChildRendered(i));
    var outSlots := Put(s.outSlots, f.indexIn, s.children[i].image);
    assert s1 == s.(children := s.children[i := Waiting], kernel := s.kernel + [Message(i, FrameDone(f))],
                    outSlots := outSlots);
    var s2 := ServerTakes(c, s1, s.kernel, Message(i, FrameDone(f)));
    assert s2 == s.(children := s.children[i := Waiting], outSlots := outSlots, server := Finishing(i, f));
    t := Do(c, s2, Finish);
  }

  /** The producer decodes a frame and marks its slot, but does not queue it yet. */
  lemma TakeUp(c: Config, s: State) returns (t: State)
    requires c.Valid() && Reachable(c, s) && Shaped(c, s)
    requires s.producer == RingTest && !InputRing.Blocked(s.ring) && s.frameNum < c.length
    ensures Reachable(c, t) && Shaped(c, t)
    ensures t == s.(producer := Enqueueing, frameNum := s.frameNum + 1,
                    inSlots := s.inSlots[s.ring.tailIn := s.frameNum + 1],
                    ring := s.ring.(used := s.ring.used[s.ring.tailIn := 1]))
  {
    var s2 := TakeIn(c, s);
    t := Do(c, s2, Mark);
  }

  lemma TakeIn(c: Config, s: State) returns (t: State)
    requires c.Valid() && Reachable(c, s) && Shaped(c, s)
    requires s.producer == RingTest && !InputRing.Blocked(s.ring) && s.frameNum < c.length
    ensures Reachable(c, t) && Shaped(c, t)
    ensures var n := s.frameNum + 1;
      t == s.(producer := Marking, frameNum := n, inSlots := s.inSlots[s.ring.tailIn := n])
  {
    var s1 := Do(c, s, PassRing);
    assert s1 == s.(producer := Decoding);
    t := Do(c, s1, DecodeFrame);
  }

  /** The producer queues the frame and moves on. */
  lemma PutDown(c: Config, s: State) returns (t: State)
    requires c.Valid() && Reachable(c, s) && Shaped(c, s)
    requires s.producer == Enqueueing && |s.queue| < c.capacity
    ensures Reachable(c, t) && Shaped(c, t)
    ensures t == s.(producer := RingTest, queue := s.queue + [Frame(RenderFrame(s.frameNum, s.ring.tailIn))],
                    ring := s.ring.(tailIn := NextSlot(s.ring.tailIn, c.ringSize)))
  {
    var s1 := Do(c, s, Enqueue);
    t := Do(c, s1, Advance);
  }

  // ----- Overwriting -----

  /** The message that brings frame 1 to the first card. */
  function FirstMessage(c: Config): Message
    requires c.Valid() && |Cards(c.capable)| > 0
  {
    Message(Cards(c.capable)[0], ChildRenderFrame(Nth(c, 0)))
  }

  /** The cards l[..j] have been sent a frame each, which all but the first have begun to render;
      the queue holds k more, and the producer holds one; nothing has come back. */
  ghost predicate Filled(c: Config, s: State, j: nat, k: nat) {
    var l := Cards(c.capable);
    && c.Valid() && Reachable(c, s) && Shaped(c, s) && j <= |l|
    && s.producer == Enqueueing && s.server == Receiving && s.outputs == []
    && s.kernel == (if j == 0 then [] else [FirstMessage(c)])
    && s.ring.headIn == -1 && |s.sent| == j && |s.queue| == k
    && s.frameNum == j + k + 1 <= c.ringSize
    && (forall x | 0 <= x < s.frameNum :: s.ring.used[x] == 1)
    && (j > 0 ==> s.children[l[0]] == Waiting)
    && (forall x | 1 <= x < j :: s.children[l[x]].Rendering? && s.children[l[x]].frame == Nth(c, x))
    && (forall x | j <= x < |l| :: s.children[l[x]] == Booting)
  }

  /** In the first lap the frame in the producer's hand is in the slot of its number. */
  lemma TailInHand(c: Config, s: State)
    requires c.Valid() && Reachable(c, s) && s.producer == Enqueueing && s.frameNum <= c.ringSize
    ensures Shaped(c, s) && s.ring.tailIn == s.frameNum - 1
  {
    InOrder(c, s);
  }

  lemma {:induction false} FillQueue(c: Config, k: nat) returns (s: State)
    requires c.Valid() && k <= c.capacity && k + 1 <= c.ringSize && k + 1 <= c.length
    ensures Filled(c, s, 0, k)
  {
    if k == 0 {
      ReachableInit(c);
      s := TakeUp(c, Init(c));
    } else {
      var s0 := FillQueue(c, k - 1);
      TailInHand(c, s0);
      var s1 := PutDown(c, s0);
      s := TakeUp(c, s1);
    }
  }

  /** What card l[j] is doing when it has been sent its frame: the first one has not looked yet. */
  function Sent(c: Config, s: State, j: nat): Child
    requires c.Valid()
  {
    if j == 0 then Waiting else Rendering(Nth(c, j), Get(s.inSlots, Nth(c, j).indexIn))
  }

  /** Card l[j] becomes ready and is sent the frame at the front of the queue. */
  lemma HandOutNext(c: Config, s: State, j: nat) returns (t: State)
    requires Filled(c, s, j, c.capacity) && j < |Cards(c.capable)|
    ensures Reachable(c, t) && Shaped(c, t)
    ensures t.producer == Enqueueing && t.server == Receiving && t.kernel == [FirstMessage(c)] && t.outputs == []
    ensures t.ring == s.ring && t.frameNum == s.frameNum
    ensures |t.sent| == j + 1 && |t.queue| == c.capacity - 1
    ensures t.children == s.children[Cards(c.capable)[j] := Sent(c, s, j)]
  {
    var i := Cards(c.capable)[j];
    Front(c, s);
    if j > 0 {
      OtherWaits(FirstMessage(c), i);
      t := Engage(c, s, i, Nth(c, j));
    } else {
      var s1 := Handshake(c, s, i);
      t := HandOut(c, s1, i, Nth(c, 0));
    }
  }

  /** One more card gets a frame, and the producer takes up one more. */
  lemma FillStep(c: Config, s: State, j: nat) returns (t: State)
    requires Filled(c, s, j, c.capacity) && j < |Cards(c.capable)|
    requires j + c.capacity + 2 <= c.ringSize && j + c.capacity + 2 <= c.length
    ensures Filled(c, t, j + 1, c.capacity)
  {
    var s1 := HandOutNext(c, s, j);
    FilledChildren(c, s, j, s1);
    TailInHand(c, s1);
    var s2 := PutDown(c, s1);
    t := TakeUp(c, s2);
  }

  lemma FilledChildren(c: Config, s: State, j: nat, t: State)
    requires Filled(c, s, j, c.capacity) && j < |Cards(c.capable)|
    requires t.children == s.children[Cards(c.capable)[j] := Sent(c, s, j)]
    ensures t.children[Cards(c.capable)[0]] == Waiting
    ensures var l := Cards(c.capable); forall x | 1 <= x < j + 1 ::
      t.children[l[x]].Rendering? && t.children[l[x]].frame == Nth(c, x)
    ensures var l := Cards(c.capable); forall x | j + 1 <= x < |l| :: t.children[l[x]] == Booting
  {
    var l := Cards(c.capable);
    forall x | 0 <= x < |l| ensures t.children[l[x]] == if x == j then Sent(c, s, j) else s.children[l[x]] {
      assert x != j ==> l[x] != l[j];
    }
  }

  lemma {:induction false} Fill(c: Config, j: nat) returns (s: State)
    requires c.Valid() && j <= |Cards(c.capable)|
    requires j + c.capacity + 1 <= c.ringSize && j + c.capacity + 1 <= c.length
    ensures Filled(c, s, j, c.capacity)
  {
    if j == 0 {
      s := FillQueue(c, c.capacity);
    } else {
      var s0 := Fill(c, j - 1);
      s := FillStep(c, s0, j - 1);
    }
  }

  /** With a whole lap decoded and the ring test not looking, the next frame lands on frame 1. */
  lemma DecodeOver(c: Config, s: State) returns (t: State)
    requires c.Valid() && Reachable(c, s) && Shaped(c, s)
    requires s.producer == Enqueueing && s.frameNum == c.ringSize < c.length && |s.queue| < c.capacity
    requires s.ring.headIn <= 0
    ensures Reachable(c, t) && Shaped(c, t) && t.producer == Marking && t.frameNum == c.ringSize + 1
    ensures t.inSlots[0] == c.ringSize + 1
    ensures t.kernel == s.kernel && t.server == s.server && t.children == s.children && t.sent == s.sent
  {
    TailInHand(c, s);
    var s1 := PutDown(c, s);
    assert s1.ring.tailIn == 0;
    var s2 := Do(c, s1, PassRing);
    t := Do(c, s2, DecodeFrame);
  }

  /** Frame 1 has been overwritten before its card has taken it. */
  ghost predicate TooLate(c: Config, s: State) {
    && c.Valid() && Reachable(c, s) && Shaped(c, s) && |Cards(c.capable)| > 0
    && s.server == Receiving && s.kernel == [FirstMessage(c)] && s.children[Cards(c.capable)[0]] == Waiting
    && s.inSlots[0] == c.ringSize + 1
  }

  /** The only frames in the slots before the cards look: those on the queue. */
  lemma OverwriteFromQueue(c: Config) returns (t: State)
    requires c.Valid() && c.ringSize < c.length && c.ringSize <= c.capacity
    ensures Reachable(c, t) && Shaped(c, t) && t.inSlots[0] == c.ringSize + 1
    ensures t.queue != [] && t.queue[0] == Frame(Nth(c, 0)) && t.server == Receiving && t.kernel == []
    ensures forall x | 0 <= x < |Cards(c.capable)| :: t.children[Cards(c.capable)[x]] == Booting
  {
    var s := FillQueue(c, c.ringSize - 1);
    t := DecodeOver(c, s);
    Front(c, t);
  }

  /** ... after which the first card is sent the frame. */
  lemma TooLateFromQueue(c: Config) returns (t: State)
    requires c.Valid() && c.ringSize < c.length && c.ringSize <= c.capacity && |Cards(c.capable)| > 0
    ensures TooLate(c, t)
  {
    var i := Cards(c.capable)[0];
    var s := OverwriteFromQueue(c);
    var s1 := Handshake(c, s, i);
    t := HandOut(c, s1, i, Nth(c, 0));
  }

  lemma OverwriteAtStart(c: Config) returns (t: State)
    requires c.Valid() && c.ringSize < c.length && c.capacity + 1 <= c.ringSize
    requires c.capacity + 1 + |Cards(c.capable)| > c.ringSize
    ensures TooLate(c, t)
  {
    var j := c.ringSize - c.capacity - 1;
    var s := Fill(c, j);
    var s1 := HandOutNext(c, s, j);
    FilledChildren(c, s, j, s1);
    t := DecodeOver(c, s1);
  }

  /** While slot 0 is used, taking back another frame first puts headIn on slot 0 or leaves it there. */
  lemma HeadLandsOnZero(r: InputRing.Ring, index: int)
    requires r.Valid() && r.headIn <= 0 && 0 < index < |r.used| && r.used[0] == 1
    ensures InputRing.VideoFinished(r, index).headIn == 0
    ensures InputRing.VideoFinished(r, index).used[0] == 1
  {
    var u := InputRing.Decrement(r.used, index);
    assert u[0] == 1;
    if r.headIn == -1 { assert InputRing.Scan(u, -1, |u|) == InputRing.Scan(u, 0, |u| - 1); }
  }

  /** Two cards and a ring that is just filled: when the second card is done first, headIn becomes
      0 while the producer is past its ring test for the last slot. */
  lemma OverwriteAfterHandOver(c: Config) returns (t: State)
    requires c.Valid() && c.ringSize < c.length
    requires c.capacity + 1 + |Cards(c.capable)| == c.ringSize && |Cards(c.capable)| >= 2
    ensures TooLate(c, t)
  {
    var l := Cards(c.capable);
    var s := Fill(c, |l|);
    var s1 := ReturnSecond(c, s);
    var f := Nth(c, |l|);
    Front(c, s1);
    OtherWaits(FirstMessage(c), l[1]);
    var s2 := Dispatch(c, s1, l[1], f);
    t := DecodeOver(c, s2);
  }

  /** The second card is the first to be done. */
  lemma ReturnSecond(c: Config, s: State) returns (t: State)
    requires Filled(c, s, |Cards(c.capable)|, c.capacity) && |Cards(c.capable)| >= 2
    ensures var l := Cards(c.capable);
      && Reachable(c, t) && Shaped(c, t) && t.ring.headIn == 0 && t.producer == Enqueueing && t.frameNum == s.frameNum
      && t.kernel == [FirstMessage(c)] && t.server == Dequeueing(l[1])
      && t.children[l[1]] == Waiting && t.children[l[0]] == Waiting
      && |t.sent| == |l| && |t.queue| == c.capacity && |t.sent| < Enqueued(t)
  {
    var l := Cards(c.capable);
    OtherWaits(FirstMessage(c), l[1]);
    t := Complete(c, s, l[1]);
    HeadLandsOnZero(s.ring, s.children[l[1]].frame.indexIn);
  }

  /** For all sizes that are not safe, frame 1 can be overwritten before its card takes it. */
  lemma OverwriteHappens(c: Config) returns (t: State)
    requires c.Valid() && !Safe(c) && |Cards(c.capable)| > 0
    ensures TooLate(c, t)
  {
    if c.capacity + 1 > c.ringSize {
      t := TooLateFromQueue(c);
    } else if c.capacity + 1 + |Cards(c.capable)| > c.ringSize {
      t := OverwriteAtStart(c);
    } else {
      t := OverwriteAfterHandOver(c);
    }
  }

  lemma PendingIsOut(c: Config, s: State, k: nat)
    requires CargoInv(c, s) && k < |s.kernel| && s.kernel[k].body.ChildRenderFrame?
    ensures Out(s, s.kernel[k].body.frame)
  {
    assert MessageInv(c, s, s.kernel[k]);
    assert s.flight[s.kernel[k].child] == s.kernel[k].body.frame;
  }

  lemma TooLateIsBroken(c: Config, s: State)
    requires TooLate(c, s)
    ensures !Intact(s)
  {
    ReachableInv(c, s);
    PendingIsOut(c, s, 0);
  }

  /** The slot ring keeps every frame intact on all runs just when the sizes are safe. */
  lemma IntactIffSafe(c: Config)
    requires c.Valid()
    ensures Safe(c) <==> forall s | Reachable(c, s) :: Intact(s)
  {
    if Safe(c) {
      forall s | Reachable(c, s) ensures Intact(s) {
        SafeIsIntact(c, s);
      }
    } else if |Cards(c.capable)| > 0 {
      var t := OverwriteHappens(c);
      TooLateIsBroken(c, t);
    } else {
      var t := OverwriteFromQueue(c);
      assert Out(t, Nth(c, 0));
    }
  }

  // ----- Wrong pictures -----

  /** Every picture written is the one of the frame it is written for. */
  ghost predicate OutputsRight(s: State) {
    forall k | 0 <= k < |s.outputs| :: s.outputs[k].image == s.outputs[k].frame.frameNum
  }

  /** The card takes frame 1 too late, renders what it finds, and that is written as frame 1. */
  lemma WrongPicture(c: Config, s: State) returns (t: State)
    requires TooLate(c, s)
    ensures Reachable(c, t) && t.outputs == s.outputs + [Output(RenderFrame(1, 0), c.ringSize + 1)]
  {
    var m := FirstMessage(c);
    assert s.kernel == [] + [m];
    var s1 := ChildTakes(c, s, [], m);
    t := Complete(c, s1, m.child);
  }

  /** Without a capable card nothing is ever written. */
  lemma {:induction false} PathWithoutCards(c: Config, s: State, acts: seq<Action>, t: State)
    requires Inv(c, s) && Path(c, s, acts, t) && |Cards(c.capable)| == 0 && s.outputs == []
    ensures t.outputs == []
    decreases |acts|
  {
    if acts != [] {
      InvStep(c, s, acts[0]);
      NothingFinishes(c, s, acts[0]);
      PathWithoutCards(c, Apply(c, s, acts[0]), acts[1..], t);
    }
  }

  lemma NothingFinishes(c: Config, s: State, a: Action)
    requires Shaped(c, s) && CargoInv(c, s) && Enabled(c, s, a) && |Cards(c.capable)| == 0
    ensures Apply(c, s, a).outputs == s.outputs
  {
    if a == Dequeue || a == Finish { ServedIsCard(c, s); } else { HistoryStays(c, s, a); }
  }

  /** The server turns to capable cards only. */
  lemma ServedIsCard(c: Config, s: State)
    requires c.Valid() && CargoInv(c, s) && !s.server.Receiving?
    ensures |Cards(c.capable)| >= 1
  {
    assert s.server.child in Cards(c.capable);
  }

  /** Every picture written is right on all runs just when the sizes are safe, or no card is
      capable and none is ever written. */
  lemma OutputsRightIff(c: Config)
    requires c.Valid()
    ensures (forall s | Reachable(c, s) :: OutputsRight(s)) <==> Safe(c) || |Cards(c.capable)| == 0
  {
    if Safe(c) {
      forall s | Reachable(c, s) ensures OutputsRight(s) {
        OutputsAreRight(c, s);
      }
    } else if |Cards(c.capable)| == 0 {
      forall s | Reachable(c, s) ensures OutputsRight(s) {
        var acts :| Path(c, Init(c), acts, s);
        InvInit(c);
        PathWithoutCards(c, Init(c), acts, s);
      }
    } else {
      var s := OverwriteHappens(c);
      var t := WrongPicture(c, s);
      assert t.outputs[|s.outputs|] == Output(RenderFrame(1, 0), c.ringSize + 1);
    }
  }

  // ----- Waiting for each other -----

  /** The server waits for a frame to hand out, and the producer waits for a slot. */
  predicate Deadlocked(s: State)
    requires s.ring.Valid()
  {
    s.server.Dequeueing? && s.queue == [] && s.producer == RingTest && InputRing.Blocked(s.ring)
  }

  /** Nothing the renderers still do undoes it. */
  lemma DeadlockStays(c: Config, s: State, a: Action)
    requires Shaped(c, s) && Deadlocked(s) && Enabled(c, s, a)
    ensures Deadlocked(Apply(c, s, a)) && Apply(c, s, a).outputs == s.outputs
  {
  }

  /** Card a has frame 1 and does not let go; card b has just returned every later one. */
  ghost predicate Stalling(c: Config, s: State, a: nat, b: nat, k: nat) {
    && c.Valid() && Reachable(c, s) && Shaped(c, s) && Capable(c, a) && Capable(c, b) && a != b
    && s.producer == RingTest && s.frameNum == k && s.queue == [] && s.kernel == []
    && s.server == Dequeueing(b) && s.children[b] == Waiting && s.children[a].Rendering?
    && s.ring.used[0] == 1 && s.ring.headIn == (if k >= 2 then 0 else -1)
  }

  lemma StallStart(c: Config, a: nat, b: nat) returns (t: State)
    requires c.Valid() && Capable(c, a) && Capable(c, b) && a != b && c.length >= 1
    ensures Stalling(c, t, a, b, 1)
  {
    ReachableInit(c);
    var s1 := TakeUp(c, Init(c));
    var s2 := PutDown(c, s1);
    var s3 := Engage(c, s2, a, RenderFrame(1, 0));
    t := Handshake(c, s3, b);
  }

  lemma TailAt(c: Config, s: State)
    requires c.Valid() && Reachable(c, s) && s.producer == RingTest && s.frameNum < c.ringSize
    ensures s.ring.tailIn == s.frameNum
  {
    InOrder(c, s);
  }

  lemma StallStep(c: Config, s: State, a: nat, b: nat, k: nat) returns (t: State)
    requires Stalling(c, s, a, b, k) && 1 <= k <= c.ringSize - 2 && k < c.length
    ensures Stalling(c, t, a, b, k + 1)
  {
    TailAt(c, s);
    var s2 := NextFrame(c, s);
    t := RoundTrip(c, s2, a, b, k);
  }

  /** The producer decodes a frame and queues it. */
  lemma NextFrame(c: Config, s: State) returns (t: State)
    requires c.Valid() && Reachable(c, s) && Shaped(c, s)
    requires s.producer == RingTest && !InputRing.Blocked(s.ring) && s.frameNum < c.length && s.queue == []
    ensures Reachable(c, t) && Shaped(c, t) && t.producer == RingTest && t.frameNum == s.frameNum + 1
    ensures t.queue == [Frame(RenderFrame(s.frameNum + 1, s.ring.tailIn))] && t.sent == s.sent
    ensures t.kernel == s.kernel && t.server == s.server && t.children == s.children
    ensures t.ring.headIn == s.ring.headIn && t.ring.used == s.ring.used[s.ring.tailIn := 1]
    ensures t.ring.tailIn == NextSlot(s.ring.tailIn, c.ringSize)
  {
    var s1 := TakeUp(c, s);
    t := PutDown(c, s1);
  }

  /** Card b gets frame k and returns it. */
  lemma RoundTrip(c: Config, s: State, a: nat, b: nat, k: nat) returns (t: State)
    requires c.Valid() && Reachable(c, s) && Shaped(c, s) && a != b && Capable(c, a) && Capable(c, b)
    requires s.server == Dequeueing(b) && s.children[b] == Waiting && s.children[a].Rendering?
    requires s.kernel == [] && s.queue == [Frame(RenderFrame(k + 1, k))] && 1 <= k < c.ringSize
    requires s.ring.headIn <= 0 && s.ring.used[0] == 1
    ensures Reachable(c, t) && Shaped(c, t) && t.producer == s.producer && t.frameNum == s.frameNum
    ensures t.server == Dequeueing(b) && t.children[b] == Waiting && t.children[a].Rendering?
    ensures t.kernel == [] && t.queue == []
    ensures t.ring.headIn == 0 && t.ring.used[0] == 1
  {
    var s1 := Dispatch(c, s, b, RenderFrame(k + 1, k));
    t := Complete(c, s1, b);
    HeadLandsOnZero(s1.ring, k);
  }

  lemma {:induction false} Stall(c: Config, a: nat, b: nat, k: nat) returns (t: State)
    requires c.Valid() && Capable(c, a) && Capable(c, b) && a != b && 1 <= k <= c.ringSize - 1 && k <= c.length
    ensures Stalling(c, t, a, b, k)
    decreases k
  {
    if k == 1 {
      t := StallStart(c, a, b);
    } else {
      var s := Stall(c, a, b, k - 1);
      t := StallStep(c, s, a, b, k - 1);
    }
  }

  /** Two cards and a file of frameCountIn - 1 frames are enough for it. */
  lemma DeadlockHappens(c: Config) returns (t: State)
    requires c.Valid() && |Cards(c.capable)| >= 2 && c.length >= c.ringSize - 1
    ensures Reachable(c, t) && Shaped(c, t) && Deadlocked(t)
  {
    var l := Cards(c.capable);
    t := Stall(c, l[0], l[1], c.ringSize - 1);
    ReachableInv(c, t);
  }

  /** With safe sizes, one card only, or a file that leaves a slot to spare, rules it out. */
  lemma NoDeadlock(c: Config, s: State)
    requires c.Valid() && Safe(c) && Reachable(c, s) && Shaped(c, s)
    requires |Cards(c.capable)| <= 1 || c.length < c.ringSize - 1
    ensures !Deadlocked(s)
  {
    if Deadlocked(s) {
      var base := ReachableRing(c, s);
      BlockedMeansFull(c, s, base);
      if |Cards(c.capable)| <= 1 {
        NothingLeft(c, s);
      }
    }
  }

  /** The ring test fails only when the producer is just one slot short of a whole lap. */
  lemma BlockedMeansFull(c: Config, s: State, base: nat)
    requires Shaped(c, s) && OrderInv(c, s) && WindowInv(c, s, base) && Deadlocked(s)
    ensures s.ring.headIn >= 0 && Advanced(s) == s.frameNum && s.frameNum - base >= c.ringSize - 1
  {
    SlotNext(Advanced(s), c.ringSize);
    if Advanced(s) - base < c.ringSize - 1 {
      SlotInjective(Advanced(s) + 1, base, c.ringSize);
    }
  }

  /** If a lone card waits for a frame and none is queued, no frame is out. */
  lemma NothingLeft(c: Config, s: State)
    requires Inv(c, s) && Deadlocked(s) && |Cards(c.capable)| <= 1
    ensures forall g: nat :: !Live(s, g)
  {
    NoFlight(c, s, s.server.child);
    forall g: nat ensures !Live(s, g) {
      if g < s.frameNum { assert g + 1 in Numbers(|s.sent|); }
    }
  }

  /** While the server fetches a frame for the only card, no frame is in flight. */
  lemma NoFlight(c: Config, s: State, b: nat)
    requires CargoInv(c, s) && Partition(s) && s.server == Dequeueing(b) && |Cards(c.capable)| <= 1
    ensures DoneNums(s.outputs) == Numbers(|s.sent|)
  {
    var both := s.flight.Keys + {b};
    KeysBound(both, Cards(c.capable));
    assert |both| == |s.flight.Keys| + 1;
    assert s.flight == map[];
  }
}
