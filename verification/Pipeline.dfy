/** The frame pipeline as a machine whose steps are the program points at which the decoder
    thread (src/video_in.c), the server loop (src/main.c) and the renderers
    (src/render_child.c) act on what they share. Any interleaving of the steps is a run. */
module Pipeline {
  import opened Ipc
  import opened Slots
  import InputRing

  /** `capable[i]`: card i has the extensions the server asks for.  `capacity` is the number of
      items ChildMsgQ holds, `ringSize` is frameCountIn, and `length` is the number of frames
      the file holds. */
  datatype Config = Config(capable: seq<bool>, capacity: nat, ringSize: nat, length: nat) {
    predicate Valid() {
      0 < |capable| && 1 <= capacity && 3 <= ringSize
    }
  }

  /** What travels on ChildMsgQ. The last entry is the one with frameNum -1. */
  datatype Entry = Frame(frame: RenderFrame) | NoMoreFrames

  datatype Producer = RingTest | Decoding | Marking | Enqueueing | Advancing | EndEnqueueing | Stopped

  datatype Server =
    | Receiving
    | Finishing(child: nat, frame: RenderFrame)
    | Dequeueing(child: nat)
    | Requeueing(child: nat)

  /** `image` is the number of the decoded picture that loadFrame found in the input slot. */
  datatype Child = Booting | Waiting | Configuring | Rendering(frame: RenderFrame, image: int) | Exited

  /** One picture written by videoOut: under which frame, and what was in the output slot. */
  datatype Output = Output(frame: RenderFrame, image: int)

  /** `inSlots` and `outSlots` hold the number of the picture last put into each slot.
      `sent`, `flight` and `outputs` are the history: frames handed to children in order, the
      frame each child has and the server has not yet taken back, and pictures written. */
  datatype State = State(
    producer: Producer,
    frameNum: nat,
    ring: InputRing.Ring,
    inSlots: seq<int>,
    outSlots: seq<int>,
    queue: seq<Entry>,
    kernel: seq<Message>,
    server: Server,
    children: seq<Child>,
    sent: seq<RenderFrame>,
    flight: map<nat, RenderFrame>,
    outputs: seq<Output>)

  datatype Action =
    | PassRing | DecodeFrame | EndOfVideo | Mark | Enqueue | Advance | EnqueueEnd
    | ServeMessage | Finish | Dequeue | Requeue
    | ChildBoot(i: nat) | ChildReceive(i: nat) | ChildConfigured(i: nat) | ChildRendered(i: nat)

  /** Who takes a step. */
  predicate ByProducer(a: Action) {
    a.PassRing? || a.DecodeFrame? || a.EndOfVideo? || a.Mark? || a.Enqueue? || a.Advance? || a.EnqueueEnd?
  }

  predicate ByServer(a: Action) {
    a.ServeMessage? || a.Finish? || a.Dequeue? || a.Requeue?
  }

  predicate ByChild(a: Action) {
    !ByProducer(a) && !ByServer(a)
  }

  function Init(c: Config): State
    requires c.Valid()
  {
    State(RingTest, 0,
          InputRing.Ring(-1, 0, seq(c.ringSize, _ => 0)), seq(c.ringSize, _ => 0), seq(c.ringSize, _ => 0),
          [], [], Receiving, seq(|c.capable|, _ => Booting), [], map[], [])
  }

  /** Sizes of the tables, which no step changes. */
  predicate Shaped(c: Config, s: State) {
    c.Valid() && s.ring.Valid() &&
    |s.ring.used| == |s.inSlots| == |s.outSlots| == c.ringSize && |s.children| == |c.capable|
  }

  function Get(slots: seq<int>, i: int): int {
    if 0 <= i < |slots| then slots[i] else 0
  }

  function Put(slots: seq<int>, i: int, v: int): (r: seq<int>)
    ensures |r| == |slots|
  {
    if 0 <= i < |slots| then slots[i := v] else slots
  }

  predicate Enabled(c: Config, s: State, a: Action)
    requires Shaped(c, s)
  {
    match a
    case PassRing => s.producer == RingTest && !InputRing.Blocked(s.ring)
    case DecodeFrame => s.producer == Decoding && s.frameNum < c.length
    case EndOfVideo => s.producer == Decoding && s.frameNum >= c.length
    case Mark => s.producer == Marking
    case Enqueue => s.producer == Enqueueing && |s.queue| < c.capacity
    case Advance => s.producer == Advancing
    case EnqueueEnd => s.producer == EndEnqueueing && |s.queue| < c.capacity
    case ServeMessage => s.server == Receiving && Select(s.kernel, Q_MSG_ALL_SERVER) >= 0
    case Finish => s.server.Finishing?
    case Dequeue => s.server.Dequeueing? && s.queue != []
    case Requeue => s.server.Requeueing? && |s.queue| < c.capacity
    case ChildBoot(i) => i < |s.children| && s.children[i] == Booting
    case ChildReceive(i) =>
      i < |s.children| && s.children[i] == Waiting && Select(s.kernel, Q_MSG_CLIENT_START + i) >= 0
    case ChildConfigured(i) => i < |s.children| && s.children[i] == Configuring
    case ChildRendered(i) => i < |s.children| && s.children[i].Rendering?
  }

  /** The answer of the server loop to a message it has just received. */
  function Serve(c: Config, s: State, m: Message): State {
    match m.body
    case Ready =>
      var capable := m.child < |c.capable| && c.capable[m.child];
      s.(kernel := s.kernel + [Message(m.child, if capable then ChildRenderMode else ChildExit)])
    case RenderReady => s.(server := Dequeueing(m.child))
    case FrameDone(f) => s.(server := Finishing(m.child, f))
    case _ => s
  }

  /** What child i does with a message it has just received. */
  function Accept(s: State, i: nat, body: Body): State
    requires i < |s.children|
  {
    match body
    case ChildExit => s.(children := s.children[i := Exited])
    case ChildRenderMode => s.(children := s.children[i := Configuring])
    case ChildRenderFrame(f) => s.(children := s.children[i := Rendering(f, Get(s.inSlots, f.indexIn))])
    case _ => s
  }

  /** The server takes message k off the queue and answers it. */
  function ServeNext(c: Config, s: State, k: nat): State
    requires k < |s.kernel|
  {
    Serve(c, s.(kernel := RemoveAt(s.kernel, k)), s.kernel[k])
  }

  /** Child i takes message k off the queue. */
  function Receive(s: State, i: nat, k: nat): State
    requires k < |s.kernel| && i < |s.children|
  {
    Accept(s.(kernel := RemoveAt(s.kernel, k)), i, s.kernel[k].body)
  }

  function Apply(c: Config, s: State, a: Action): (s': State)
    requires Shaped(c, s) && Enabled(c, s, a)
    ensures Shaped(c, s')
  {
    match a
    case PassRing => s.(producer := Decoding)
    case DecodeFrame =>
      s.(producer := Marking, frameNum := s.frameNum + 1,
         inSlots := Put(s.inSlots, s.ring.tailIn, s.frameNum + 1))
    case EndOfVideo => s.(producer := EndEnqueueing)
    case Mark => s.(producer := Enqueueing, ring := s.ring.(used := Put(s.ring.used, s.ring.tailIn, 1)))
    case Enqueue =>
      s.(producer := Advancing, queue := s.queue + [Frame(RenderFrame(s.frameNum, s.ring.tailIn))])
    case Advance =>
      s.(producer := RingTest, ring := s.ring.(tailIn := NextSlot(s.ring.tailIn, c.ringSize)))
    case EnqueueEnd => s.(producer := Stopped, queue := s.queue + [NoMoreFrames])
    case ServeMessage =>
      ServeNext(c, s, Select(s.kernel, Q_MSG_ALL_SERVER))
    case Finish =>
      var f := s.server.frame;
      s.(server := Dequeueing(s.server.child), ring := InputRing.VideoFinished(s.ring, f.indexIn),
         flight := s.flight - {s.server.child}, outputs := s.outputs + [Output(f, Get(s.outSlots, f.indexIn))])
    case Dequeue =>
      var i := s.server.child;
      (match s.queue[0]
       case NoMoreFrames => s.(queue := s.queue[1..], server := Requeueing(i))
       case Frame(f) =>
         s.(queue := s.queue[1..], server := Receiving, kernel := s.kernel + [Message(i, ChildRenderFrame(f))],
            sent := s.sent + [f], flight := s.flight[i := f]))
    case Requeue =>
      s.(queue := s.queue + [NoMoreFrames], server := Receiving,
         kernel := s.kernel + [Message(s.server.child, ChildExit)])
    case ChildBoot(i) =>
      s.(children := s.children[i := Waiting], kernel := s.kernel + [Message(i, Ready)])
    case ChildReceive(i) =>
      Receive(s, i, Select(s.kernel, Q_MSG_CLIENT_START + i))
    case ChildConfigured(i) =>
      s.(children := s.children[i := Waiting], kernel := s.kernel + [Message(i, RenderReady)])
    case ChildRendered(i) =>
      var f := s.children[i].frame;
      s.(children := s.children[i := Waiting], outSlots := Put(s.outSlots, f.indexIn, s.children[i].image),
         kernel := s.kernel + [Message(i, FrameDone(f))])
  }

  /** `acts` leads from s to t. */
  ghost predicate Path(c: Config, s: State, acts: seq<Action>, t: State)
    requires Shaped(c, s)
    decreases |acts|
  {
    if acts == [] then s == t
    else Enabled(c, s, acts[0]) && Path(c, Apply(c, s, acts[0]), acts[1..], t)
  }

  ghost predicate Reachable(c: Config, s: State)
    requires c.Valid()
  {
    exists acts :: Path(c, Init(c), acts, s)
  }

  lemma {:induction false} PathSnoc(c: Config, s: State, acts: seq<Action>, t: State, a: Action)
    requires Shaped(c, s) && Path(c, s, acts, t) && Shaped(c, t) && Enabled(c, t, a)
    ensures Path(c, s, acts + [a], Apply(c, t, a))
    decreases |acts|
  {
    if acts == [] {
      assert ([a])[1..] == [];
    } else {
      PathSnoc(c, Apply(c, s, acts[0]), acts[1..], t, a);
      assert (acts + [a])[1..] == acts[1..] + [a];
    }
  }

  lemma {:induction false} PathShaped(c: Config, s: State, acts: seq<Action>, t: State)
    requires Shaped(c, s) && Path(c, s, acts, t)
    ensures Shaped(c, t)
    decreases |acts|
  {
    if acts != [] { PathShaped(c, Apply(c, s, acts[0]), acts[1..], t); }
  }

  lemma ReachableInit(c: Config)
    requires c.Valid()
    ensures Reachable(c, Init(c))
  {
    assert Path(c, Init(c), [], Init(c));
  }

  lemma ReachableStep(c: Config, s: State, a: Action)
    requires c.Valid() && Reachable(c, s) && Shaped(c, s) && Enabled(c, s, a)
    ensures Reachable(c, Apply(c, s, a))
  {
    var acts :| Path(c, Init(c), acts, s);
    PathSnoc(c, Init(c), acts, s, a);
  }
}
