/** The parent process in the form it is written in: globals and arrays changed in place by the
    decoder thread (src/video_in.c) and by the server loop (src/main.c). Each method is one step
    of the pipeline, and does to the globals what that step does to the abstract state. */
module Parent {
  import opened Ipc
  import opened Slots
  import opened Pipeline
  import opened PipelineProgress
  import opened PipelineProtocol
  import opened PipelineRing
  import InputRing

  class Globals {
    const frameCount: nat
    // src/video_in.c
    var producer: Producer
    var frameNum: nat
    var headIn: int
    var tailIn: int
    const used: array<int>
    const inSlots: array<int>
    const outSlots: array<int>
    var childMsgQ: seq<Entry>
    // the kernel's message queue and the processes at its other end
    var kernel: seq<Message>
    var children: seq<Child>
    // src/main.c
    var server: Server
    // history
    ghost var sent: seq<RenderFrame>
    ghost var flight: map<nat, RenderFrame>
    ghost var outputs: seq<Output>

    ghost function View(): State
      reads this, used, inSlots, outSlots
    {
      State(producer, frameNum, InputRing.Ring(headIn, tailIn, used[..]), inSlots[..], outSlots[..],
            childMsgQ, kernel, server, children, sent, flight, outputs)
    }

    ghost predicate Valid(c: Config)
      reads this, used, inSlots, outSlots
    {
      frameCount == c.ringSize && used != inSlots && used != outSlots && inSlots != outSlots && Shaped(c, View())
    }

    constructor (c: Config)
      requires c.Valid()
      ensures Valid(c) && View() == Init(c)
      ensures fresh(used) && fresh(inSlots) && fresh(outSlots)
    {
      frameCount := c.ringSize;
      producer, frameNum, headIn, tailIn := RingTest, 0, -1, 0;
      used := new int[c.ringSize](_ => 0);
      inSlots := new int[c.ringSize](_ => 0);
      outSlots := new int[c.ringSize](_ => 0);
      childMsgQ, kernel, server := [], [], Receiving;
      children := seq(|c.capable|, _ => Booting);
      sent, flight, outputs := [], map[], [];
      new;
      assert View().ring.used == Init(c).ring.used;
      assert View().inSlots == Init(c).inSlots;
      assert View().outSlots == Init(c).outSlots;
    }

    // ----- The decoder thread -----

    /** One look at the ring. */
    method TestRing(ghost c: Config) returns (full: bool)
      requires Valid(c) && producer == RingTest
      modifies this`producer
      ensures full <==> InputRing.Blocked(old(View()).ring)
      ensures full ==> View() == old(View())
      ensures !full ==> Enabled(c, old(View()), PassRing) && View() == Apply(c, old(View()), PassRing)
    {
      NextSlotIsMod(tailIn, frameCount);
      full := (tailIn + 1) % frameCount == headIn;
      if !full { producer := Decoding; }
    }

    /** getFrame: decodes into the slot of tailIn, or finds the end of the file. */
    method Decode(c: Config) returns (got: bool)
      requires Valid(c) && producer == Decoding
      modifies this`producer, this`frameNum, inSlots
      ensures got <==> old(frameNum) < c.length
      ensures got ==> View() == Apply(c, old(View()), DecodeFrame)
      ensures !got ==> View() == Apply(c, old(View()), EndOfVideo)
    {
      got := frameNum < c.length;
      if got {
        inSlots[tailIn] := frameNum + 1;
        frameNum := frameNum + 1;
        producer := Marking;
        assert inSlots[..] == Put(old(inSlots[..]), tailIn, frameNum);
      } else {
        producer := EndEnqueueing;
      }
    }

    method MarkUsed(ghost c: Config)
      requires Valid(c) && producer == Marking
      modifies this`producer, used
      ensures View() == Apply(c, old(View()), Mark)
    {
      used[tailIn] := 1;
      producer := Enqueueing;
      assert used[..] == Put(old(used[..]), tailIn, 1);
    }

    /** QueueEnqueueItem, once there is room. */
    method EnqueueFrame(ghost c: Config)
      requires Valid(c) && Enabled(c, View(), Enqueue)
      modifies this`producer, this`childMsgQ
      ensures View() == Apply(c, old(View()), Enqueue)
    {
      childMsgQ := childMsgQ + [Frame(RenderFrame(frameNum, tailIn))];
      producer := Advancing;
    }

    method AdvanceTail(ghost c: Config)
      requires Valid(c) && producer == Advancing
      modifies this`producer, this`tailIn
      ensures View() == Apply(c, old(View()), Advance)
    {
      NextSlotIsMod(tailIn, frameCount);
      tailIn := (tailIn + 1) % frameCount;
      producer := RingTest;
    }

    method EnqueueEndMarker(ghost c: Config)
      requires Valid(c) && Enabled(c, View(), EnqueueEnd)
      modifies this`producer, this`childMsgQ
      ensures View() == Apply(c, old(View()), EnqueueEnd)
    {
      childMsgQ := childMsgQ + [NoMoreFrames];
      producer := Stopped;
    }

    // ----- The server loop -----

    /** used[i], where slot -1 counts as free. */
    function UsedSlot(i: int): (u: int)
      requires -1 <= i < used.Length
      reads used
      ensures u == InputRing.UsedAt(used[..], i)
    {
      if i == -1 then 0 else used[i]
    }

    /** videoFinished: gives a slot back and looks for the oldest one still in use. */
    method VideoFinished(currIndex: int)
      requires -1 <= headIn < used.Length && 0 <= tailIn < used.Length == frameCount
      requires 0 <= currIndex < used.Length
      modifies this`headIn, used
      ensures var before := InputRing.Ring(old(headIn), tailIn, old(used[..]));
        InputRing.Ring(headIn, tailIn, used[..]) == InputRing.VideoFinished(before, currIndex)
    {
      used[currIndex] := used[currIndex] - 1;
      ghost var u := used[..];
      assert u == InputRing.Decrement(old(used[..]), currIndex);
      if UsedSlot(headIn) != 0 {
        return;
      }
      var i, j := headIn, 0;
      while j < frameCount && UsedSlot(i) == 0
        invariant -1 <= i < used.Length && 0 <= j <= frameCount
        invariant used[..] == u && headIn == old(headIn)
        invariant InputRing.Scan(u, i, frameCount - j) == InputRing.Scan(u, headIn, frameCount)
      {
        NextSlotIsMod(i, frameCount);
        i := (i + 1) % frameCount;
        j := j + 1;
      }
      assert InputRing.Scan(u, headIn, frameCount) == i;
      if UsedSlot(i) == 0 {
        headIn := tailIn;
      } else {
        headIn := i;
      }
    }

    /** queueReceive for all server messages, and the switch on what came. */
    method ReceiveAndServe(c: Config)
      requires Valid(c) && Enabled(c, View(), ServeMessage)
      modifies this`kernel, this`server
      ensures View() == Apply(c, old(View()), ServeMessage)
    {
      var k := Select(kernel, Q_MSG_ALL_SERVER);
      var m := kernel[k];
      kernel := RemoveAt(kernel, k);
      match m.body
      case Ready =>
        if m.child < |c.capable| && c.capable[m.child] {
          kernel := kernel + [Message(m.child, ChildRenderMode)];
        } else {
          kernel := kernel + [Message(m.child, ChildExit)];
        }
      case RenderReady => server := Dequeueing(m.child);
      case FrameDone(f) => server := Finishing(m.child, f);
      case _ =>
    }

    /** videoOut and videoFinished for a frame that came back. */
    method FinishFrame(ghost c: Config)
      requires Valid(c) && server.Finishing? && 0 <= server.frame.indexIn < frameCount
      modifies this, used
      ensures View() == Apply(c, old(View()), Finish)
    {
      var child, frame := server.child, server.frame;
      outputs := outputs + [Output(frame, outSlots[frame.indexIn])];
      VideoFinished(frame.indexIn);
      flight := flight - {child};
      server := Dequeueing(child);
    }

    /** getNextFrame, once there is an item, and sendFrame for a frame. */
    method SendNextFrame(ghost c: Config)
      requires Valid(c) && Enabled(c, View(), Dequeue)
      modifies this`childMsgQ, this`kernel, this`server, this`sent, this`flight
      ensures View() == Apply(c, old(View()), Dequeue)
    {
      var child, item := server.child, childMsgQ[0];
      childMsgQ := childMsgQ[1..];
      match item
      case NoMoreFrames => server := Requeueing(child);
      case Frame(f) =>
        kernel := kernel + [Message(child, ChildRenderFrame(f))];
        sent, flight := sent + [f], flight[child := f];
        server := Receiving;
    }

    /** The end marker goes back on the queue for the next child, and this one is told to exit. */
    method PutBackEndMarker(ghost c: Config)
      requires Valid(c) && Enabled(c, View(), Requeue)
      modifies this`childMsgQ, this`kernel, this`server
      ensures View() == Apply(c, old(View()), Requeue)
    {
      childMsgQ := childMsgQ + [NoMoreFrames];
      kernel := kernel + [Message(server.child, ChildExit)];
      server := Receiving;
    }

    // ----- Whole rounds -----

    /** One round of the decoder's loop, with room on the queue: either the ring test fails and
        nothing happens, or one frame or the end marker is queued. */
    method VideoInRound(c: Config) returns (full: bool)
      requires Valid(c) && Reachable(c, View()) && producer == RingTest && |childMsgQ| < c.capacity
      modifies this`producer, this`frameNum, this`tailIn, this`childMsgQ, inSlots, used
      ensures Valid(c) && Reachable(c, View())
      ensures full <==> InputRing.Blocked(old(View()).ring)
      ensures full ==> View() == old(View())
      ensures !full && old(frameNum) < c.length ==>
        && producer == RingTest && frameNum == old(frameNum) + 1 && tailIn == NextSlot(old(tailIn), frameCount)
        && childMsgQ == old(childMsgQ) + [Frame(RenderFrame(frameNum, old(tailIn)))]
        && inSlots[..] == old(inSlots[..])[old(tailIn) := frameNum] && used[..] == old(used[..])[old(tailIn) := 1]
      ensures !full && old(frameNum) >= c.length ==>
        && producer == Stopped && frameNum == old(frameNum) && tailIn == old(tailIn)
        && childMsgQ == old(childMsgQ) + [NoMoreFrames]
        && inSlots[..] == old(inSlots[..]) && used[..] == old(used[..])
    {
      ghost var s := View();
      full := TestRing(c);
      if full {
        return;
      }
      ReachableStep(c, s, PassRing);
      var got := DecodeNext(c);
      if got {
        QueueFrame(c);
      } else {
        s := View();
        EnqueueEndMarker(c);
        ReachableStep(c, s, EnqueueEnd);
      }
    }

    /** getFrame in a round. */
    method DecodeNext(c: Config) returns (got: bool)
      requires Valid(c) && Reachable(c, View()) && producer == Decoding
      modifies this`producer, this`frameNum, inSlots
      ensures Valid(c) && Reachable(c, View()) && (got <==> old(frameNum) < c.length)
      ensures got ==> producer == Marking && frameNum == old(frameNum) + 1
      ensures got ==> inSlots[..] == old(inSlots[..])[tailIn := frameNum]
      ensures !got ==> producer == EndEnqueueing && frameNum == old(frameNum) && inSlots[..] == old(inSlots[..])
    {
      ghost var s := View();
      got := Decode(c);
      ReachableStep(c, s, if got then DecodeFrame else EndOfVideo);
    }

    /** The second half of a round: mark, queue, move on. */
    method QueueFrame(c: Config)
      requires Valid(c) && Reachable(c, View()) && producer == Marking && |childMsgQ| < c.capacity
      modifies this`producer, this`tailIn, this`childMsgQ, used
      ensures Valid(c) && Reachable(c, View()) && producer == RingTest && tailIn == NextSlot(old(tailIn), frameCount)
      ensures childMsgQ == old(childMsgQ) + [Frame(RenderFrame(frameNum, old(tailIn)))]
      ensures used[..] == old(used[..])[old(tailIn) := 1]
    {
      ghost var s := View();
      MarkUsed(c);
      ReachableStep(c, s, Mark);
      s := View();
      EnqueueFrame(c);
      ReachableStep(c, s, Enqueue);
      s := View();
      AdvanceTail(c);
      ReachableStep(c, s, Advance);
    }

    /** One round of the server's loop, with a message to take and an item on the queue: the message is
        answered, and what its parts ask of their callers is met. */
    method ServerRound(c: Config) returns (ghost m: Message)
      requires Valid(c) && Reachable(c, View()) && Enabled(c, View(), ServeMessage) && childMsgQ != []
      modifies this, used
      ensures Valid(c) && Reachable(c, View()) && RoundDone(c, old(View()), View(), m)
    {
      ghost var s := View();
      m := TakeMessage(c);
      ghost var s1 := View();
      if server.Finishing? {
        TakeBack(c);
      }
      ghost var s2 := View();
      if server.Dequeueing? {
        SendFrame(c);
      }
      PartsMakeRound(c, s, s1, s2, View(), m);
    }

    /** queueReceive and the switch, as far as no frame is written or fetched. */
    method TakeMessage(c: Config) returns (ghost m: Message)
      requires Valid(c) && Reachable(c, View()) && Enabled(c, View(), ServeMessage)
      modifies this`kernel, this`server
      ensures Valid(c) && Reachable(c, View()) && Taken(c, old(View()), View(), m)
      ensures m.body.RenderReady? ==> m.child !in flight
    {
      ghost var s := View();
      ReadyHasNone(c, s);
      m := s.kernel[Select(s.kernel, Q_MSG_ALL_SERVER)];
      ReceiveAndServe(c);
      ReachableStep(c, s, ServeMessage);
      ServeTakes(c, s);
    }

    /** The case of Q_MSG_FRAME_DONE, up to sendFrame. */
    method TakeBack(c: Config)
      requires Valid(c) && Reachable(c, View()) && server.Finishing?
      modifies this, used
      ensures Valid(c) && Reachable(c, View()) && TakenBack(old(View()), View())
    {
      ghost var s := View();
      ReachableInv(c, s);
      FinishIsMarked(c, s);
      FinishFrame(c);
      ReachableStep(c, s, Finish);
      FinishTakesBack(c, s);
    }

    /** sendFrame. */
    method SendFrame(c: Config)
      requires Valid(c) && Reachable(c, View()) && server.Dequeueing? && childMsgQ != []
      modifies this`childMsgQ, this`kernel, this`server, this`sent, this`flight
      ensures Valid(c) && Reachable(c, View()) && SentOn(old(View()), View())
    {
      ghost var s := View();
      SendNextFrame(c);
      ReachableStep(c, s, Dequeue);
      if server.Requeueing? {
        ghost var s1 := View();
        EndMarkerIsLast(c, s1);
        PutBackEndMarker(c);
        ReachableStep(c, s1, Requeue);
      }
    }
  }

  // ----- What a round of the server does -----

  /** The message that is received is off the queue; a card that starts up is told to render or to
      exit, and for all others the server goes on with their frame. */
  ghost predicate Taken(c: Config, s: State, s': State, m: Message) {
    var k := Select(s.kernel, Q_MSG_ALL_SERVER);
    && k >= 0 && m == s.kernel[k]
    && var rest := s.kernel[..k] + s.kernel[k + 1..];
    match m.body
    case Ready => s' == s.(kernel := rest + [Message(m.child, Greeting(c, m.child))])
    case RenderReady => s' == s.(kernel := rest, server := Dequeueing(m.child))
    case FrameDone(f) => s' == s.(kernel := rest, server := Finishing(m.child, f))
    case _ => false
  }

  function Greeting(c: Config, child: nat): Body {
    if child < |c.capable| && c.capable[child] then ChildRenderMode else ChildExit
  }

  /** The finished frame is written with the picture of its output slot, its input slot is used once
      less, and headIn stays where it is or moves from a free slot to a used one or to the tail. */
  ghost predicate TakenBack(s: State, s': State)
    requires s.server.Finishing?
  {
    var i, f, r := s.server.child, s.server.frame, s'.ring;
    && 0 <= f.indexIn < |s.outSlots| && f.indexIn < |s.ring.used| && -1 <= s.ring.headIn < |s.ring.used|
    && s' == s.(server := Dequeueing(i), ring := r, flight := s.flight - {i},
                outputs := s.outputs + [Output(f, s.outSlots[f.indexIn])])
    && r.tailIn == s.ring.tailIn && r.used == s.ring.used[f.indexIn := s.ring.used[f.indexIn] - 1]
    && -1 <= r.headIn < |r.used| && (r.headIn == r.tailIn || InputRing.UsedAt(r.used, r.headIn) != 0)
    && (InputRing.UsedAt(r.used, s.ring.headIn) != 0 ==> r.headIn == s.ring.headIn)
  }

  /** The next frame leaves the queue for the child; the end marker stays, and the child is to exit. */
  ghost predicate SentOn(s: State, s': State)
    requires s.server.Dequeueing? && s.queue != []
  {
    var i := s.server.child;
    match s.queue[0]
    case Frame(f) =>
      s' == s.(server := Receiving, queue := s.queue[1..], kernel := s.kernel + [Message(i, ChildRenderFrame(f))],
               sent := s.sent + [f], flight := s.flight[i := f])
    case NoMoreFrames =>
      s.queue == [NoMoreFrames] && s' == s.(server := Receiving, kernel := s.kernel + [Message(i, ChildExit)])
  }

  /** A round: exactly one message is taken and exactly one sent, to the same child; each frame that
      comes back is written and its slot given back, and all who are waiting get the next frame. */
  ghost predicate RoundDone(c: Config, s: State, s': State, m: Message) {
    var k := Select(s.kernel, Q_MSG_ALL_SERVER);
    && k >= 0 && m == s.kernel[k] && s.queue != [] && s'.server == Receiving
    && var rest := s.kernel[..k] + s.kernel[k + 1..];
    && (m.body.Ready? ==> s' == s.(kernel := rest + [Message(m.child, Greeting(c, m.child))]))
    && (!m.body.Ready? ==> Fetched(s, s', rest, m.child))
    && (m.body.RenderReady? ==> s'.ring == s.ring && s'.outputs == s.outputs)
    && (m.body.FrameDone? ==> Written(s, s', m.body.frame))
    && (m.body.Ready? || m.body.RenderReady? || m.body.FrameDone?)
    && s'.producer == s.producer && s'.frameNum == s.frameNum && s'.ring.tailIn == s.ring.tailIn
    && s'.inSlots == s.inSlots && s'.outSlots == s.outSlots && s'.children == s.children
  }

  ghost predicate Fetched(s: State, s': State, rest: seq<Message>, i: nat)
    requires s.queue != []
  {
    match s.queue[0]
    case Frame(f) =>
      && s'.kernel == rest + [Message(i, ChildRenderFrame(f))] && s'.queue == s.queue[1..]
      && s'.sent == s.sent + [f] && s'.flight == s.flight[i := f]
    case NoMoreFrames =>
      && s'.kernel == rest + [Message(i, ChildExit)] && s'.queue == s.queue == [NoMoreFrames]
      && s'.sent == s.sent && s'.flight == s.flight - {i}
  }

  ghost predicate Written(s: State, s': State, f: RenderFrame) {
    && 0 <= f.indexIn < |s.outSlots| && f.indexIn < |s.ring.used| && -1 <= s.ring.headIn < |s.ring.used|
    && s'.outputs == s.outputs + [Output(f, s.outSlots[f.indexIn])]
    && s'.ring.used == s.ring.used[f.indexIn := s.ring.used[f.indexIn] - 1]
    && -1 <= s'.ring.headIn < |s'.ring.used|
    && (s'.ring.headIn == s.ring.tailIn || InputRing.UsedAt(s'.ring.used, s'.ring.headIn) != 0)
    && (InputRing.UsedAt(s'.ring.used, s.ring.headIn) != 0 ==> s'.ring.headIn == s.ring.headIn)
  }

  lemma ServeTakes(c: Config, s: State)
    requires Shaped(c, s) && Enabled(c, s, ServeMessage)
    ensures Taken(c, s, Apply(c, s, ServeMessage), s.kernel[Select(s.kernel, Q_MSG_ALL_SERVER)])
  {
    TakenByServer(s.kernel);
  }

  /** A card that is ready to render has no frame. */
  lemma ReadyHasNone(c: Config, s: State)
    requires c.Valid() && Reachable(c, s) && Shaped(c, s) && Enabled(c, s, ServeMessage)
    ensures var m := s.kernel[Select(s.kernel, Q_MSG_ALL_SERVER)]; m.body.RenderReady? ==> m.child !in s.flight
  {
    ReachableInv(c, s);
    assert MessageInv(c, s, s.kernel[Select(s.kernel, Q_MSG_ALL_SERVER)]);
  }

  lemma FinishTakesBack(c: Config, s: State)
    requires Shaped(c, s) && Enabled(c, s, Finish) && 0 <= s.server.frame.indexIn < c.ringSize
    ensures TakenBack(s, Apply(c, s, Finish))
  {
    var index := s.server.frame.indexIn;
    InputRing.UsedAfter(s.ring, index);
    InputRing.HeadAfter(s.ring, index);
  }

  lemma PartsMakeRound(c: Config, s: State, s1: State, s2: State, s3: State, m: Message)
    requires s.server == Receiving && s.queue != [] && Taken(c, s, s1, m)
    requires if s1.server.Finishing? then TakenBack(s1, s2) else s2 == s1
    requires if s2.server.Dequeueing? then SentOn(s2, s3) else s3 == s2
    requires m.body.RenderReady? ==> m.child !in s.flight
    ensures RoundDone(c, s, s3, m)
  {
  }
}
