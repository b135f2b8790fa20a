/** What every run of the pipeline delivers: order, conservation, a bound on its length, and the
    states in which it can end. */
module PipelineProgress {
  import opened Ipc
  import opened Slots
  import opened Pipeline
  import opened PipelineProtocol
  import opened PipelineRing
  import opened PipelineSafety
  import opened PipelineRuns
  import InputRing

  // ----- Order, tokens and conservation, as a reader would state them -----

  lemma {:induction false} FirstAt(c: Config, n: nat, k: nat)
    requires c.Valid() && k < n
    ensures First(c, n)[k] == Nth(c, k)
  {
    if k < n - 1 { FirstAt(c, n - 1, k); }
  }

  /** Frames go out as 1, 2, 3, ..., the k-th one from slot (k - 1) mod frameCountIn. */
  lemma DispatchedInOrder(c: Config, s: State)
    requires c.Valid() && Reachable(c, s)
    ensures forall k: nat | k < |s.sent| :: s.sent[k] == RenderFrame(k + 1, k % c.ringSize)
  {
    InOrder(c, s);
    forall k: nat | k < |s.sent| ensures s.sent[k] == RenderFrame(k + 1, k % c.ringSize) {
      FirstAt(c, |s.sent|, k);
      SlotIsMod(k, c.ringSize);
    }
  }

  /** A child that has not exited has exactly one turn: it computes, or the server deals with
      it, or one message from or to it is pending. A child that has exited has none. */
  lemma OneTokenEach(c: Config, s: State, i: nat)
    requires c.Valid() && Reachable(c, s) && i < |c.capable|
    ensures Shaped(c, s)
    ensures s.children[i] == Exited ==>
      Count(s.kernel, i) == 0 && !Serving(s.server, i) && i !in s.flight
    ensures s.children[i] != Exited ==>
      (if Computing(s.children[i]) then 1 else 0) + (if Serving(s.server, i) then 1 else 0) + Count(s.kernel, i) == 1
    ensures forall j, k | 0 <= j < k < |s.kernel| :: s.kernel[j].child == i ==> s.kernel[k].child != i
  {
    ReachableInv(c, s);
    TokenOf(c, s, i);
    forall j, k | 0 <= j < k < |s.kernel| && s.kernel[j].child == i ensures s.kernel[k].child != i {
      if s.kernel[k].child == i { CountTwo(s.kernel, j, k); }
    }
  }

  lemma TokenOf(c: Config, s: State, i: nat)
    requires TokensInv(c, s) && CargoInv(c, s) && i < |s.children|
    ensures Tokens(s, i) == if s.children[i] == Exited then 0 else 1
    ensures s.children[i] == Exited ==> i !in s.flight
  {
    assert ChildInv(c, s, i);
  }

  lemma CountTwo(q: seq<Message>, j: nat, k: nat)
    requires j < k < |q| && q[j].child == q[k].child
    ensures Count(q, q[j].child) >= 2
  {
    var i := q[j].child;
    CountRemove(q, j, i);
    assert RemoveAt(q, j)[k - 1] == q[k];
    CountPositive(RemoveAt(q, j), k - 1);
  }

  function QueuedNums(q: seq<Entry>): set<int> {
    if |q| == 0 then {}
    else QueuedNums(q[..|q| - 1]) + (if q[|q| - 1].Frame? then {q[|q| - 1].frame.frameNum} else {})
  }

  /** The frame the producer has decoded and not yet queued. */
  function HandNums(s: State): set<int> {
    if s.producer == Marking || s.producer == Enqueueing then {s.frameNum} else {}
  }

  lemma {:induction false} PendingNums(c: Config, a: nat, b: nat)
    requires c.Valid() && a <= b
    ensures forall n :: n in QueuedNums(Pending(c, a, b)) <==> a < n <= b
    ensures QueuedNums(Pending(c, a, b) + [NoMoreFrames]) == QueuedNums(Pending(c, a, b))
  {
    assert (Pending(c, a, b) + [NoMoreFrames])[..b - a] == Pending(c, a, b);
    if a < b {
      PendingNums(c, a, b - 1);
      assert Pending(c, a, b)[..b - 1 - a] == Pending(c, a, b - 1);
    }
  }

  lemma QueueNums(c: Config, s: State)
    requires c.Valid() && OrderInv(c, s)
    ensures forall n :: n in QueuedNums(s.queue) <==> |s.sent| < n <= Enqueued(s)
  {
    PendingNums(c, |s.sent|, Enqueued(s));
    if !EndQueued(s) { assert s.queue == Pending(c, |s.sent|, Enqueued(s)); }
  }

  /** The frames decoded so far are those written, those with a child, those on the queue and
      the one in the producer's hand, and no frame is counted twice. */
  lemma FramesAreConserved(c: Config, s: State)
    requires c.Valid() && Reachable(c, s)
    ensures Numbers(s.frameNum) == DoneNums(s.outputs) + FlightNums(s.flight) + QueuedNums(s.queue) + HandNums(s)
    ensures DoneNums(s.outputs) !! FlightNums(s.flight) !! QueuedNums(s.queue) !! HandNums(s)
    ensures OncePerFrame(s.outputs) && OneChildEach(s.flight)
  {
    ReachableInv(c, s);
    QueueNums(c, s);
    var handedOut := DoneNums(s.outputs) + FlightNums(s.flight);
    Glue(handedOut, QueuedNums(s.queue), HandNums(s), |s.sent|, Enqueued(s), s.frameNum);
  }

  lemma Glue(low: set<int>, middle: set<int>, high: set<int>, i: nat, j: nat, k: nat)
    requires low == Numbers(i) && i <= j <= k <= j + 1
    requires forall n :: n in middle <==> i < n <= j
    requires high == if j < k then {k} else {}
    ensures Numbers(k) == low + middle + high
    ensures low !! middle !! high
  {
  }

  /** The end marker is behind every frame, putting it back never blocks, and no child is ever
      handed it. */
  lemma EndMarkerIsLast(c: Config, s: State)
    requires c.Valid() && Reachable(c, s)
    ensures forall k | 0 <= k < |s.queue| && s.queue[k] == NoMoreFrames :: k == |s.queue| - 1
    ensures Shaped(c, s) && (s.server.Requeueing? ==> s.queue == [] && Enabled(c, s, Requeue))
    ensures forall k | 0 <= k < |s.kernel| && s.kernel[k].body.ChildRenderFrame? :: 1 <= s.kernel[k].body.frame.frameNum
  {
    ReachableInv(c, s);
    forall k | 0 <= k < |s.queue| && s.queue[k] == NoMoreFrames ensures k == |s.queue| - 1 {
      if k < |Pending(c, |s.sent|, Enqueued(s))| { PendingIsFrames(c, |s.sent|, Enqueued(s), k); }
    }
    forall k | 0 <= k < |s.kernel| && s.kernel[k].body.ChildRenderFrame? ensures 1 <= s.kernel[k].body.frame.frameNum {
      assert MessageInv(c, s, s.kernel[k]);
      assert IsSent(c, s, s.flight[s.kernel[k].child]);
    }
  }

  lemma {:induction false} PendingIsFrames(c: Config, a: nat, b: nat, k: nat)
    requires c.Valid() && a <= b && k < b - a
    ensures Pending(c, a, b)[k].Frame?
  {
    if k < b - 1 - a { PendingIsFrames(c, a, b - 1, k); }
  }

  // ----- Every run is finite -----

  function ProducerWeight(p: Producer): nat {
    match p
    case RingTest => 3
    case Decoding => 2
    case Marking => 11
    case Enqueueing => 10
    case Advancing => 4
    case EndEnqueueing => 1
    case Stopped => 0
  }

  function MessageWeight(b: Body): nat {
    match b
    case Ready => 7
    case RenderReady => 4
    case FrameDone(_) => 5
    case ChildExit => 1
    case ChildRenderMode => 6
    case ChildRenderFrame(_) => 7
  }

  function ChildWeight(p: Child): nat {
    match p
    case Booting => 8
    case Configuring => 5
    case Rendering(_, _) => 6
    case _ => 0
  }

  function ServerWeight(v: Server): nat {
    match v
    case Receiving => 0
    case Finishing(_, _) => 4
    case Dequeueing(_) => 3
    case Requeueing(_) => 2
  }

  function QueueWeight(q: seq<Entry>): nat {
    if |q| == 0 then 0 else QueueWeight(q[..|q| - 1]) + (if q[|q| - 1].Frame? then 5 else 0)
  }

  function KernelWeight(q: seq<Message>): nat {
    if |q| == 0 then 0 else KernelWeight(q[..|q| - 1]) + MessageWeight(q[|q| - 1].body)
  }

  function ChildrenWeight(p: seq<Child>): nat {
    if |p| == 0 then 0 else ChildrenWeight(p[..|p| - 1]) + ChildWeight(p[|p| - 1])
  }

  /** How much the system still has to do. */
  function Work(c: Config, s: State): int {
    10 * (c.length - s.frameNum) + ProducerWeight(s.producer) + QueueWeight(s.queue)
    + KernelWeight(s.kernel) + ChildrenWeight(s.children) + ServerWeight(s.server)
  }

  lemma QueueWeightAppend(q: seq<Entry>, e: Entry)
    ensures QueueWeight(q + [e]) == QueueWeight(q) + if e.Frame? then 5 else 0
  {
    assert (q + [e])[..|q|] == q;
  }

  lemma {:induction false} QueueWeightHead(q: seq<Entry>)
    requires q != []
    ensures QueueWeight(q) == QueueWeight(q[1..]) + if q[0].Frame? then 5 else 0
  {
    if |q| > 1 {
      var n := |q| - 1;
      QueueWeightHead(q[..n]);
      assert q[..n][1..] + [q[n]] == q[1..];
      QueueWeightAppend(q[..n][1..], q[n]);
    }
  }

  lemma KernelWeightAppend(q: seq<Message>, m: Message)
    ensures KernelWeight(q + [m]) == KernelWeight(q) + MessageWeight(m.body)
  {
    assert (q + [m])[..|q|] == q;
  }

  lemma {:induction false} KernelWeightRemove(q: seq<Message>, k: nat)
    requires k < |q|
    ensures KernelWeight(q) == KernelWeight(RemoveAt(q, k)) + MessageWeight(q[k].body)
  {
    var n := |q| - 1;
    if k == n {
      assert RemoveAt(q, k) == q[..n];
    } else {
      KernelWeightRemove(q[..n], k);
      RemoveInFront(q, k);
      KernelWeightAppend(RemoveAt(q[..n], k), q[n]);
    }
  }

  lemma {:induction false} ChildrenWeightUpdate(p: seq<Child>, i: nat, v: Child)
    requires i < |p|
    ensures ChildrenWeight(p[i := v]) == ChildrenWeight(p) - ChildWeight(p[i]) + ChildWeight(v)
  {
    var n := |p| - 1;
    if i == n {
      assert p[i := v][..n] == p[..n];
    } else {
      ChildrenWeightUpdate(p[..n], i, v);
      assert p[i := v][..n] == p[..n][i := v];
    }
  }

  lemma WorkProducer(c: Config, s: State, a: Action)
    requires Shaped(c, s) && Enabled(c, s, a) && ByProducer(a)
    ensures Work(c, Apply(c, s, a)) < Work(c, s)
  {
    QueueWeightAppend(s.queue, Frame(RenderFrame(s.frameNum, s.ring.tailIn)));
    QueueWeightAppend(s.queue, NoMoreFrames);
  }

  lemma WorkServe(c: Config, s: State)
    requires Shaped(c, s) && Enabled(c, s, ServeMessage)
    ensures Work(c, Apply(c, s, ServeMessage)) < Work(c, s)
  {
    var k := Serves(c, s);
    KernelWeightRemove(s.kernel, k);
    KernelWeightAppend(RemoveAt(s.kernel, k), Message(s.kernel[k].child, ChildRenderMode));
    KernelWeightAppend(RemoveAt(s.kernel, k), Message(s.kernel[k].child, ChildExit));
  }

  lemma WorkServer(c: Config, s: State, a: Action)
    requires Shaped(c, s) && Enabled(c, s, a) && ByServer(a) && a != ServeMessage
    ensures Work(c, Apply(c, s, a)) < Work(c, s)
  {
    if a == Dequeue {
      QueueWeightHead(s.queue);
      if s.queue[0].Frame? {
        KernelWeightAppend(s.kernel, Message(s.server.child, ChildRenderFrame(s.queue[0].frame)));
      }
    } else if a == Requeue {
      QueueWeightAppend(s.queue, NoMoreFrames);
      KernelWeightAppend(s.kernel, Message(s.server.child, ChildExit));
    }
  }

  lemma WorkChildReceive(c: Config, s: State, i: nat)
    requires Shaped(c, s) && Enabled(c, s, ChildReceive(i))
    ensures Work(c, Apply(c, s, ChildReceive(i))) < Work(c, s)
  {
    var k := Receives(c, s, i);
    KernelWeightRemove(s.kernel, k);
    WorkAccept(c, s.(kernel := RemoveAt(s.kernel, k)), i, s.kernel[k].body);
  }

  lemma WorkAccept(c: Config, s: State, i: nat, b: Body)
    requires i < |s.children| && s.children[i] == Waiting
    requires b.ChildExit? || b.ChildRenderMode? || b.ChildRenderFrame?
    ensures Work(c, Accept(s, i, b)) < Work(c, s) + MessageWeight(b)
  {
    ChildrenWeightUpdate(s.children, i, Accept(s, i, b).children[i]);
  }

  lemma WorkChildSend(c: Config, s: State, a: Action)
    requires Shaped(c, s) && Enabled(c, s, a) && (a.ChildBoot? || a.ChildConfigured? || a.ChildRendered?)
    ensures Work(c, Apply(c, s, a)) < Work(c, s)
  {
    var m := Sends(c, s, a);
    assert MessageWeight(m.body) < ChildWeight(s.children[a.i]);
    ChildLeaves(c, s, a);
    ChildrenWeightUpdate(s.children, a.i, Waiting);
    KernelWeightAppend(s.kernel, m);
  }

  /** Every step of every run brings the work down. */
  lemma WorkFalls(c: Config, s: State, a: Action)
    requires Shaped(c, s) && Enabled(c, s, a)
    ensures Work(c, Apply(c, s, a)) < Work(c, s)
  {
    if ByProducer(a) { WorkProducer(c, s, a); }
    else if a == ServeMessage { WorkServe(c, s); }
    else if ByServer(a) { WorkServer(c, s, a); }
    else if a.ChildReceive? { WorkChildReceive(c, s, a.i); }
    else { WorkChildSend(c, s, a); }
  }

  lemma {:induction false} PathWork(c: Config, s: State, acts: seq<Action>, t: State)
    requires Shaped(c, s) && Path(c, s, acts, t)
    ensures |acts| + Work(c, t) <= Work(c, s)
    decreases |acts|
  {
    if acts != [] {
      WorkFalls(c, s, acts[0]);
      PathWork(c, Apply(c, s, acts[0]), acts[1..], t);
    }
  }

  lemma {:induction false} BootingWeight(n: nat)
    ensures ChildrenWeight(seq(n, _ => Booting)) == 8 * n
  {
    if n > 0 {
      BootingWeight(n - 1);
      assert seq(n, _ => Booting)[..n - 1] == seq(n - 1, _ => Booting);
    }
  }

  /** No run takes more steps than ten a frame and eight a child, and three. */
  lemma RunsAreBounded(c: Config, acts: seq<Action>, s: State)
    requires c.Valid() && Path(c, Init(c), acts, s)
    ensures |acts| <= 10 * c.length + 8 * |c.capable| + 3
  {
    PathWork(c, Init(c), acts, s);
    BootingWeight(|c.capable|);
    InvInit(c);
    PathKeepsInv(c, Init(c), acts, s);
  }

  // ----- How a run ends -----

  /** The producer has stopped and every frame has been handed out. */
  predicate EndSeen(s: State) {
    s.producer == Stopped && |s.sent| == s.frameNum
  }

  /** A capable card is told to exit only after the end marker came up. */
  ghost predicate ExitInv(c: Config, s: State) {
    && (forall i: nat | i < |s.children| && Capable(c, i) && s.children[i] == Exited :: EndSeen(s))
    && (forall k | 0 <= k < |s.kernel| && Capable(c, s.kernel[k].child) && s.kernel[k].body == ChildExit :: EndSeen(s))
  }

  lemma ExitInit(c: Config)
    requires c.Valid()
    ensures ExitInv(c, Init(c))
  {
  }

  lemma ExitStepProducer(c: Config, s: State, a: Action)
    requires Shaped(c, s) && ExitInv(c, s) && Enabled(c, s, a) && ByProducer(a)
    ensures ExitInv(c, Apply(c, s, a))
  {
  }

  lemma ExitStepServer(c: Config, s: State, a: Action)
    requires Shaped(c, s) && OrderInv(c, s) && ExitInv(c, s) && Enabled(c, s, a) && ByServer(a)
    ensures ExitInv(c, Apply(c, s, a))
  {
  }

  lemma ExitStepReceive(c: Config, s: State, i: nat)
    requires Shaped(c, s) && ExitInv(c, s) && Enabled(c, s, ChildReceive(i))
    ensures ExitInv(c, Apply(c, s, ChildReceive(i)))
  {
    var k := Receives(c, s, i);
    ChildLeaves(c, s, ChildReceive(i));
    ExitTaken(c, s, i, k, Apply(c, s, ChildReceive(i)));
  }

  lemma ExitTaken(c: Config, s: State, i: nat, k: nat, s': State)
    requires ExitInv(c, s) && i < |s.children| && k < |s.kernel| && s.kernel[k].child == i
    requires s' == Accept(s.(kernel := RemoveAt(s.kernel, k)), i, s.kernel[k].body)
    ensures ExitInv(c, s')
  {
    forall j | 0 <= j < |s'.kernel| && Capable(c, s'.kernel[j].child) && s'.kernel[j].body == ChildExit
      ensures EndSeen(s')
    {
      assert s'.kernel[j] == s.kernel[if j < k then j else j + 1];
    }
  }

  lemma ExitStepSend(c: Config, s: State, a: Action)
    requires Shaped(c, s) && ExitInv(c, s) && Enabled(c, s, a) && ByChild(a) && !a.ChildReceive?
    ensures ExitInv(c, Apply(c, s, a))
  {
    var m := Sends(c, s, a);
    ChildLeaves(c, s, a);
  }

  lemma {:induction false} PathKeepsExit(c: Config, s: State, acts: seq<Action>, t: State)
    requires Inv(c, s) && ExitInv(c, s) && Path(c, s, acts, t)
    ensures ExitInv(c, t)
    decreases |acts|
  {
    if acts != [] {
      InvStep(c, s, acts[0]);
      if ByProducer(acts[0]) { ExitStepProducer(c, s, acts[0]); }
      else if ByServer(acts[0]) { ExitStepServer(c, s, acts[0]); }
      else if acts[0].ChildReceive? { ExitStepReceive(c, s, acts[0].i); }
      else { ExitStepSend(c, s, acts[0]); }
      PathKeepsExit(c, Apply(c, s, acts[0]), acts[1..], t);
    }
  }

  lemma ReachableExit(c: Config, s: State)
    requires c.Valid() && Reachable(c, s)
    ensures Inv(c, s) && ExitInv(c, s)
  {
    var acts :| Path(c, Init(c), acts, s);
    InvInit(c);
    ExitInit(c);
    PathKeepsInv(c, Init(c), acts, s);
    PathKeepsExit(c, Init(c), acts, s);
  }

  ghost predicate Stuck(c: Config, s: State)
    requires Shaped(c, s)
  {
    forall a :: !Enabled(c, s, a)
  }

  predicate AllExited(s: State) {
    s.server == Receiving && forall i | 0 <= i < |s.children| :: s.children[i] == Exited
  }

  lemma PendingIsTaken(q: seq<Message>, k: nat)
    requires k < |q|
    ensures Select(q, Q_MSG_ALL_SERVER) >= 0 || Select(q, Q_MSG_CLIENT_START + q[k].child) >= 0
  {
    SelectIsOldestLowest(q, Q_MSG_ALL_SERVER);
    SelectIsOldestLowest(q, Q_MSG_CLIENT_START + q[k].child);
    assert Matches(q[k], Q_MSG_ALL_SERVER) || Matches(q[k], Q_MSG_CLIENT_START + q[k].child);
  }

  /** A child that waits has a message coming, or the server can take the one it sent. */
  lemma WaitingIsServed(c: Config, s: State, i: nat)
    requires Shaped(c, s) && TokensInv(c, s) && s.server == Receiving && i < |s.children| && s.children[i] == Waiting
    ensures Enabled(c, s, ServeMessage) || Enabled(c, s, ChildReceive(i))
  {
    assert Tokens(s, i) == 1;
    var k := CountWitness(s.kernel, i);
    PendingIsTaken(s.kernel, k);
  }

  lemma ChildStuck(c: Config, s: State, i: nat)
    requires Shaped(c, s) && TokensInv(c, s) && Stuck(c, s) && s.server == Receiving && i < |s.children|
    ensures s.children[i] == Exited
  {
    assert !Enabled(c, s, ChildBoot(i)) && !Enabled(c, s, ChildConfigured(i)) && !Enabled(c, s, ChildRendered(i));
    if s.children[i] == Waiting { WaitingIsServed(c, s, i); }
  }

  /** A run can stop only when all children have exited, or in the deadlock. */
  lemma StuckMeansDone(c: Config, s: State)
    requires c.Valid() && Reachable(c, s) && Shaped(c, s) && Stuck(c, s)
    ensures AllExited(s) || Deadlocked(s)
  {
    ReachableInv(c, s);
    if s.server == Receiving {
      forall i | 0 <= i < |s.children| ensures s.children[i] == Exited {
        ChildStuck(c, s, i);
      }
    } else {
      ServerStuck(c, s);
    }
  }

  lemma ServerStuck(c: Config, s: State)
    requires Shaped(c, s) && OrderInv(c, s) && Stuck(c, s) && s.server != Receiving
    ensures Deadlocked(s)
  {
    assert !Enabled(c, s, Finish) && !Enabled(c, s, Dequeue) && !Enabled(c, s, Requeue);
    assert !Enabled(c, s, PassRing) && !Enabled(c, s, DecodeFrame) && !Enabled(c, s, EndOfVideo);
    assert !Enabled(c, s, Mark) && !Enabled(c, s, Enqueue) && !Enabled(c, s, Advance) && !Enabled(c, s, EnqueueEnd);
  }

  /** When all children have exited, every frame of the file has been written exactly once. */
  lemma AllExitedMeansAllWritten(c: Config, s: State)
    requires c.Valid() && Reachable(c, s) && AllExited(s) && |Cards(c.capable)| >= 1
    ensures s.frameNum == c.length && |s.outputs| == c.length && DoneNums(s.outputs) == Numbers(c.length)
    ensures OncePerFrame(s.outputs)
  {
    ReachableExit(c, s);
    var i := Cards(c.capable)[0];
    assert s.children[i] == Exited;
    ExitedHaveNone(c, s);
    assert FlightNums(s.flight) == {};
  }

  lemma ExitedHaveNone(c: Config, s: State)
    requires Shaped(c, s) && CargoInv(c, s) && AllExited(s)
    ensures s.flight == map[]
  {
    forall j: nat ensures j !in s.flight {
      assert j < |s.children| ==> ChildInv(c, s, j);
    }
  }
}
