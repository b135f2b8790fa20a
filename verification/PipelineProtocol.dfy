/** What every run of the pipeline keeps, whatever the sizes: order on the frame queue, one
    token per child, and conservation of frames. */
module PipelineProtocol {
  import opened Ipc
  import opened Slots
  import opened Pipeline
  import InputRing

  /** The k-th frame handed out, counted from 0. */
  function Nth(c: Config, k: nat): RenderFrame
    requires c.Valid()
  {
    RenderFrame(k + 1, Slot(k, c.ringSize))
  }

  /** Frames the producer has put on the queue. */
  function Enqueued(s: State): int {
    s.frameNum - if s.producer == Marking || s.producer == Enqueueing then 1 else 0
  }

  /** Frames the producer has moved tailIn past. */
  function Advanced(s: State): int {
    s.frameNum - if s.producer == Marking || s.producer == Enqueueing || s.producer == Advancing then 1 else 0
  }

  /** The end marker is on the queue: put there by the producer and not in the server's hand. */
  predicate EndQueued(s: State) {
    s.producer == Stopped && !s.server.Requeueing?
  }

  /** The first k frames, in order. */
  function First(c: Config, k: nat): (f: seq<RenderFrame>)
    requires c.Valid()
    ensures |f| == k
  {
    if k == 0 then [] else First(c, k - 1) + [Nth(c, k - 1)]
  }

  /** The entries for frames a, a + 1, ..., b - 1. */
  function Pending(c: Config, a: nat, b: nat): (q: seq<Entry>)
    requires c.Valid() && a <= b
    ensures |q| == b - a
  {
    if a == b then [] else Pending(c, a, b - 1) + [Frame(Nth(c, b - 1))]
  }

  lemma {:induction false} PendingHead(c: Config, a: nat, b: nat)
    requires c.Valid() && a < b
    ensures Pending(c, a, b) == [Frame(Nth(c, a))] + Pending(c, a + 1, b)
  {
    if a + 1 < b { PendingHead(c, a, b - 1); }
  }

  // ----- What single steps change -----

  /** Which message child i takes. */
  lemma Receives(c: Config, s: State, i: nat) returns (k: nat)
    requires Shaped(c, s) && Enabled(c, s, ChildReceive(i))
    ensures k < |s.kernel| && s.kernel[k].child == i
    ensures var b := s.kernel[k].body; b.ChildExit? || b.ChildRenderMode? || b.ChildRenderFrame?
    ensures i < |s.children| && s.children[i] == Waiting && Apply(c, s, ChildReceive(i)) == Receive(s, i, k)
  {
    k := Select(s.kernel, Q_MSG_CLIENT_START + i);
    assert k >= 0;
    assert Apply(c, s, ChildReceive(i)) == Receive(s, i, k);
    TakenByChild(s.kernel, i);
  }

  /** Which message the server takes. */
  lemma Serves(c: Config, s: State) returns (k: nat)
    requires Shaped(c, s) && Enabled(c, s, ServeMessage)
    ensures k < |s.kernel|
    ensures var b := s.kernel[k].body; b.Ready? || b.RenderReady? || b.FrameDone?
    ensures Apply(c, s, ServeMessage) == ServeNext(c, s, k)
  {
    k := Select(s.kernel, Q_MSG_ALL_SERVER);
    TakenByServer(s.kernel);
  }

  /** What only the producer and the server change. */
  lemma ChildLeaves(c: Config, s: State, a: Action)
    requires Shaped(c, s) && Enabled(c, s, a) && ByChild(a)
    ensures var s' := Apply(c, s, a);
      && s'.producer == s.producer && s'.frameNum == s.frameNum && s'.ring == s.ring && s'.inSlots == s.inSlots
      && s'.queue == s.queue && s'.server == s.server
      && s'.sent == s.sent && s'.flight == s.flight && s'.outputs == s.outputs
  {
    if a.ChildReceive? { var k := Receives(c, s, a.i); }
  }

  /** What the server does not change except by taking a frame back. */
  lemma ServerLeaves(c: Config, s: State, a: Action)
    requires Shaped(c, s) && Enabled(c, s, a) && ByServer(a)
    ensures var s' := Apply(c, s, a); s'.producer == s.producer && s'.frameNum == s.frameNum && s'.inSlots == s.inSlots
    ensures a != Finish ==> Apply(c, s, a).ring == s.ring
  {
    if a == ServeMessage { var k := Serves(c, s); }
  }

  /** What changes only when a frame is handed out or taken back. */
  lemma HistoryStays(c: Config, s: State, a: Action)
    requires Shaped(c, s) && Enabled(c, s, a) && a != Dequeue && a != Finish
    ensures var s' := Apply(c, s, a); s'.sent == s.sent && s'.flight == s.flight && s'.outputs == s.outputs
  {
    if ByChild(a) { ChildLeaves(c, s, a); }
    else if a == ServeMessage { var k := Serves(c, s); }
  }

  /** A child that is done computing sends one message and waits. */
  lemma Sends(c: Config, s: State, a: Action) returns (m: Message)
    requires Shaped(c, s) && Enabled(c, s, a) && ByChild(a) && !a.ChildReceive?
    ensures a.i < |s.children| && Computing(s.children[a.i]) && m.child == a.i
    ensures match s.children[a.i]
      case Booting => m.body.Ready?
      case Configuring => m.body.RenderReady?
      case _ => m.body.FrameDone?
    ensures var s' := Apply(c, s, a); s'.kernel == s.kernel + [m] && s'.children == s.children[a.i := Waiting]
  {
    m := Message(a.i, if a.ChildBoot? then Ready
                      else if a.ChildConfigured? then RenderReady
                      else FrameDone(s.children[a.i].frame));
  }

  predicate Computing(p: Child) {
    p == Booting || p == Configuring || p.Rendering?
  }

  // ----- Order -----

  ghost predicate OrderInv(c: Config, s: State)
    requires c.Valid()
  {
    && 0 <= Advanced(s) && 0 <= Enqueued(s) && s.ring.tailIn == Slot(Advanced(s), c.ringSize)
    && s.frameNum <= c.length
    && (s.producer == EndEnqueueing || s.producer == Stopped ==> s.frameNum == c.length)
    && (s.server.Requeueing? ==> s.producer == Stopped && |s.sent| == Enqueued(s))
    && |s.sent| <= Enqueued(s)
    && s.sent == First(c, |s.sent|)
    && s.queue == Pending(c, |s.sent|, Enqueued(s)) + (if EndQueued(s) then [NoMoreFrames] else [])
    && |s.queue| <= c.capacity
  }

  lemma OrderStepEnqueue(c: Config, s: State, a: Action)
    requires Shaped(c, s) && OrderInv(c, s) && Enabled(c, s, a) && (a == Enqueue || a == EnqueueEnd)
    ensures OrderInv(c, Apply(c, s, a))
  {
  }

  lemma OrderStepAdvance(c: Config, s: State)
    requires Shaped(c, s) && OrderInv(c, s) && Enabled(c, s, Advance)
    ensures OrderInv(c, Apply(c, s, Advance))
  {
    SlotNext(Advanced(s), c.ringSize);
  }

  lemma OrderStepDecode(c: Config, s: State, a: Action)
    requires Shaped(c, s) && OrderInv(c, s) && Enabled(c, s, a)
    requires a == PassRing || a == DecodeFrame || a == EndOfVideo || a == Mark
    ensures OrderInv(c, Apply(c, s, a))
  {
  }

  lemma OrderStepServe(c: Config, s: State)
    requires Shaped(c, s) && OrderInv(c, s) && Enabled(c, s, ServeMessage)
    ensures OrderInv(c, Apply(c, s, ServeMessage))
  {
  }

  lemma OrderStepFinish(c: Config, s: State)
    requires Shaped(c, s) && OrderInv(c, s) && Enabled(c, s, Finish)
    ensures OrderInv(c, Apply(c, s, Finish))
  {
  }

  lemma OrderStepDequeue(c: Config, s: State)
    requires Shaped(c, s) && OrderInv(c, s) && Enabled(c, s, Dequeue)
    ensures OrderInv(c, Apply(c, s, Dequeue))
  {
    if |s.sent| < Enqueued(s) { PendingHead(c, |s.sent|, Enqueued(s)); }
  }

  lemma OrderStepRequeue(c: Config, s: State)
    requires Shaped(c, s) && OrderInv(c, s) && Enabled(c, s, Requeue)
    ensures OrderInv(c, Apply(c, s, Requeue))
  {
  }

  lemma OrderStepChild(c: Config, s: State, a: Action)
    requires Shaped(c, s) && OrderInv(c, s) && Enabled(c, s, a) && ByChild(a)
    ensures OrderInv(c, Apply(c, s, a))
  {
    ChildLeaves(c, s, a);
    OrderSame(c, s, Apply(c, s, a));
  }

  lemma OrderSame(c: Config, s: State, s': State)
    requires c.Valid() && OrderInv(c, s)
    requires s'.producer == s.producer && s'.frameNum == s.frameNum && s'.ring == s.ring
    requires s'.queue == s.queue && s'.server == s.server && s'.sent == s.sent
    ensures OrderInv(c, s')
  {
  }

  // ----- One token per child -----

  predicate Serving(v: Server, i: nat) {
    !v.Receiving? && v.child == i
  }

  /** How often child i's turn exists: it computes, or a message from or to it is pending, or
      the server is dealing with its message. */
  function Tokens(s: State, i: nat): nat
    requires i < |s.children|
  {
    (if Computing(s.children[i]) then 1 else 0) + Count(s.kernel, i) + (if Serving(s.server, i) then 1 else 0)
  }

  ghost predicate TokensInv(c: Config, s: State) {
    forall i: nat | i < |s.children| :: Tokens(s, i) == if s.children[i] == Exited then 0 else 1
  }

  lemma TokenStepProducer(c: Config, s: State, a: Action, i: nat)
    requires Shaped(c, s) && Enabled(c, s, a) && ByProducer(a) && i < |s.children|
    ensures Tokens(Apply(c, s, a), i) == Tokens(s, i)
  {
  }

  lemma TokenStepServer(c: Config, s: State, a: Action, i: nat)
    requires Shaped(c, s) && Enabled(c, s, a) && ByServer(a) && i < |s.children|
    ensures Tokens(Apply(c, s, a), i) == Tokens(s, i)
  {
    var q := s.kernel;
    if a == ServeMessage {
      var k := Select(q, Q_MSG_ALL_SERVER);
      TakenByServer(q);
      CountRemove(q, k, i);
      CountAppend(RemoveAt(q, k), Message(q[k].child, ChildRenderMode), i);
      CountAppend(RemoveAt(q, k), Message(q[k].child, ChildExit), i);
    } else if a == Dequeue && s.queue[0].Frame? {
      CountAppend(q, Message(s.server.child, ChildRenderFrame(s.queue[0].frame)), i);
    } else if a == Requeue {
      CountAppend(q, Message(s.server.child, ChildExit), i);
    }
  }

  lemma TokenStepSend(c: Config, s: State, a: Action, i: nat)
    requires Shaped(c, s) && Enabled(c, s, a) && ByChild(a) && !a.ChildReceive? && i < |s.children|
    ensures Tokens(Apply(c, s, a), i) == Tokens(s, i)
    ensures Apply(c, s, a).children[i] == Exited <==> s.children[i] == Exited
  {
    var m := Sends(c, s, a);
    ChildLeaves(c, s, a);
    CountAppend(s.kernel, m, i);
  }

  lemma TokenStepReceive(c: Config, s: State, j: nat, i: nat)
    requires Shaped(c, s) && Enabled(c, s, ChildReceive(j)) && i < |s.children|
    ensures var s' := Apply(c, s, ChildReceive(j));
      Tokens(s', i) + (if s'.children[i] == Exited then 1 else 0)
         == Tokens(s, i) + (if s.children[i] == Exited then 1 else 0)
  {
    var k := Receives(c, s, j);
    CountRemove(s.kernel, k, i);
    TokenAccept(s.(kernel := RemoveAt(s.kernel, k)), j, s.kernel[k].body, i);
  }

  lemma TokenAccept(s: State, j: nat, body: Body, i: nat)
    requires j < |s.children| && i < |s.children| && s.children[j] == Waiting
    requires body.ChildExit? || body.ChildRenderMode? || body.ChildRenderFrame?
    ensures Tokens(Accept(s, j, body), i) + (if Accept(s, j, body).children[i] == Exited then 1 else 0)
         == Tokens(s, i) + (if s.children[i] == Exited then 1 else 0) + (if i == j then 1 else 0)
  {
  }

  lemma TokenStep(c: Config, s: State, a: Action)
    requires Shaped(c, s) && TokensInv(c, s) && Enabled(c, s, a)
    ensures TokensInv(c, Apply(c, s, a))
  {
    forall i: nat | i < |s.children|
      ensures Tokens(Apply(c, s, a), i) == if Apply(c, s, a).children[i] == Exited then 0 else 1
    {
      assert Tokens(s, i) == if s.children[i] == Exited then 0 else 1;
      TokenStepAt(c, s, a, i);
    }
  }

  lemma TokenStepAt(c: Config, s: State, a: Action, i: nat)
    requires Shaped(c, s) && Enabled(c, s, a) && i < |s.children|
    requires Tokens(s, i) == if s.children[i] == Exited then 0 else 1
    ensures Tokens(Apply(c, s, a), i) == if Apply(c, s, a).children[i] == Exited then 0 else 1
  {
    if ByProducer(a) {
      TokenStepProducer(c, s, a, i);
    } else if ByServer(a) {
      TokenStepServer(c, s, a, i);
    } else if a.ChildReceive? {
      TokenStepReceive(c, s, a.i, i);
    } else {
      TokenStepSend(c, s, a, i);
    }
  }

  // ----- What the tokens carry -----

  datatype Cargo = Nothing | Something(frame: RenderFrame)

  function InFlight(flight: map<nat, RenderFrame>, i: nat): Cargo {
    if i in flight then Something(flight[i]) else Nothing
  }

  function MessageCargo(b: Body): Cargo {
    if b.FrameDone? || b.ChildRenderFrame? then Something(b.frame) else Nothing
  }

  function ChildCargo(p: Child): Cargo {
    if p.Rendering? then Something(p.frame) else Nothing
  }

  function ServerCargo(v: Server): Cargo {
    if v.Finishing? then Something(v.frame) else Nothing
  }

  predicate Capable(c: Config, i: nat) {
    i < |c.capable| && c.capable[i]
  }

  ghost predicate MessageInv(c: Config, s: State, m: Message) {
    m.child < |s.children| && InFlight(s.flight, m.child) == MessageCargo(m.body) &&
    (m.body.Ready? || m.body.ChildExit? || Capable(c, m.child))
  }

  ghost predicate ChildInv(c: Config, s: State, i: nat)
    requires i < |s.children|
  {
    && (s.children[i] != Waiting ==> InFlight(s.flight, i) == ChildCargo(s.children[i]))
    && (s.children[i] == Configuring || s.children[i].Rendering? ==> Capable(c, i))
  }

  /** Every token carries just the frame that its child holds, and only capable cards get any. */
  ghost predicate CargoInv(c: Config, s: State) {
    && (forall i | i in s.flight :: Capable(c, i))
    && (forall k | 0 <= k < |s.kernel| :: MessageInv(c, s, s.kernel[k]))
    && (forall i: nat | i < |s.children| :: ChildInv(c, s, i))
    && (!s.server.Receiving? ==>
          s.server.child < |s.children| && Capable(c, s.server.child) &&
          InFlight(s.flight, s.server.child) == ServerCargo(s.server))
  }

  /** While the server deals with child i, no message concerns i and i itself waits. */
  lemma ServedChildIsQuiet(c: Config, s: State)
    requires Shaped(c, s) && TokensInv(c, s) && !s.server.Receiving? && s.server.child < |s.children|
    ensures s.children[s.server.child] == Waiting
    ensures forall k | 0 <= k < |s.kernel| :: s.kernel[k].child != s.server.child
  {
    var i := s.server.child;
    assert Tokens(s, i) == if s.children[i] == Exited then 0 else 1;
    forall k | 0 <= k < |s.kernel| ensures s.kernel[k].child != i {
      CountPositive(s.kernel, k);
    }
  }

  lemma CargoStepProducer(c: Config, s: State, a: Action)
    requires Shaped(c, s) && CargoInv(c, s) && Enabled(c, s, a) && ByProducer(a)
    ensures CargoInv(c, Apply(c, s, a))
  {
    var s' := Apply(c, s, a);
    forall k | 0 <= k < |s'.kernel| ensures MessageInv(c, s', s'.kernel[k]) {
      assert MessageInv(c, s, s.kernel[k]);
    }
    forall i: nat | i < |s'.children| ensures ChildInv(c, s', i) {
      assert ChildInv(c, s, i);
    }
  }

  lemma CargoStepServe(c: Config, s: State)
    requires Shaped(c, s) && CargoInv(c, s) && Enabled(c, s, ServeMessage)
    ensures CargoInv(c, Apply(c, s, ServeMessage))
  {
    var s' := Apply(c, s, ServeMessage);
    var p := Select(s.kernel, Q_MSG_ALL_SERVER);
    TakenByServer(s.kernel);
    assert MessageInv(c, s, s.kernel[p]);
    forall k | 0 <= k < |s'.kernel| ensures MessageInv(c, s', s'.kernel[k]) {
      if k < p { assert MessageInv(c, s, s.kernel[k]); }
      else if k + 1 < |s.kernel| { assert MessageInv(c, s, s.kernel[k + 1]); }
    }
    forall i: nat | i < |s'.children| ensures ChildInv(c, s', i) {
      assert ChildInv(c, s, i);
    }
  }

  lemma CargoStepServed(c: Config, s: State, a: Action)
    requires Shaped(c, s) && TokensInv(c, s) && CargoInv(c, s) && Enabled(c, s, a)
    requires a == Finish || a == Dequeue || a == Requeue
    ensures CargoInv(c, Apply(c, s, a))
  {
    var s' := Apply(c, s, a);
    ServedChildIsQuiet(c, s);
    forall k | 0 <= k < |s'.kernel| ensures MessageInv(c, s', s'.kernel[k]) {
      if k < |s.kernel| { assert MessageInv(c, s, s.kernel[k]); }
    }
    forall i: nat | i < |s'.children| ensures ChildInv(c, s', i) {
      assert ChildInv(c, s, i);
    }
  }

  lemma CargoTake(c: Config, s: State, k: nat)
    requires CargoInv(c, s) && k < |s.kernel|
    ensures CargoInv(c, s.(kernel := RemoveAt(s.kernel, k)))
  {
    var taken := s.(kernel := RemoveAt(s.kernel, k));
    forall j | 0 <= j < |taken.kernel| ensures MessageInv(c, taken, taken.kernel[j]) {
      assert MessageInv(c, s, s.kernel[if j < k then j else j + 1]);
    }
    forall i: nat | i < |taken.children| ensures ChildInv(c, taken, i) {
      assert ChildInv(c, s, i);
    }
  }

  lemma CargoAccept(c: Config, s: State, i: nat, m: Message)
    requires CargoInv(c, s) && i < |s.children| && m.child == i && MessageInv(c, s, m)
    ensures CargoInv(c, Accept(s, i, m.body))
  {
    var s' := Accept(s, i, m.body);
    forall k | 0 <= k < |s'.kernel| ensures MessageInv(c, s', s'.kernel[k]) {
      assert MessageInv(c, s, s.kernel[k]);
    }
    forall j: nat | j < |s'.children| ensures ChildInv(c, s', j) {
      assert ChildInv(c, s, j);
    }
  }

  lemma CargoStepReceive(c: Config, s: State, i: nat)
    requires Shaped(c, s) && CargoInv(c, s) && Enabled(c, s, ChildReceive(i))
    ensures CargoInv(c, Apply(c, s, ChildReceive(i)))
  {
    var k := Receives(c, s, i);
    CargoTake(c, s, k);
    assert MessageInv(c, s, s.kernel[k]);
    CargoAccept(c, s.(kernel := RemoveAt(s.kernel, k)), i, s.kernel[k]);
  }

  lemma CargoStepSend(c: Config, s: State, a: Action)
    requires Shaped(c, s) && CargoInv(c, s) && Enabled(c, s, a) && ByChild(a) && !a.ChildReceive?
    ensures CargoInv(c, Apply(c, s, a))
  {
    var s' := Apply(c, s, a);
    assert ChildInv(c, s, a.i);
    forall k | 0 <= k < |s'.kernel| ensures MessageInv(c, s', s'.kernel[k]) {
      if k < |s.kernel| { assert MessageInv(c, s, s.kernel[k]); }
    }
    forall i: nat | i < |s'.children| ensures ChildInv(c, s', i) {
      assert ChildInv(c, s, i);
    }
  }

  // ----- No frame is lost or done twice -----

  /** f was handed out. */
  predicate IsSent(c: Config, s: State, f: RenderFrame)
    requires c.Valid()
  {
    1 <= f.frameNum <= |s.sent| && f == Nth(c, f.frameNum - 1)
  }

  function DoneNums(outputs: seq<Output>): set<int> {
    set k | 0 <= k < |outputs| :: outputs[k].frame.frameNum
  }

  function FlightNums(flight: map<nat, RenderFrame>): set<int> {
    set i | i in flight :: flight[i].frameNum
  }

  /** 1, 2, ..., n. */
  function Numbers(n: nat): (r: set<int>)
    ensures forall g :: g in r <==> 1 <= g <= n
  {
    if n == 0 then {} else Numbers(n - 1) + {n}
  }

  ghost predicate HandedOut(c: Config, s: State)
    requires c.Valid()
  {
    && (forall i | i in s.flight :: IsSent(c, s, s.flight[i]))
    && (forall k | 0 <= k < |s.outputs| :: IsSent(c, s, s.outputs[k].frame))
  }

  ghost predicate OneChildEach(flight: map<nat, RenderFrame>) {
    forall i, j | i in flight && j in flight && i != j :: flight[i].frameNum != flight[j].frameNum
  }

  ghost predicate OncePerFrame(outputs: seq<Output>) {
    forall k, l | 0 <= k < l < |outputs| :: outputs[k].frame.frameNum != outputs[l].frame.frameNum
  }

  /** The frames handed out are those done and those in flight, with nothing in both. */
  ghost predicate Partition(s: State) {
    && DoneNums(s.outputs) !! FlightNums(s.flight)
    && DoneNums(s.outputs) + FlightNums(s.flight) == Numbers(|s.sent|)
    && |s.outputs| + |s.flight| == |s.sent|
  }

  ghost predicate ConservedInv(c: Config, s: State)
    requires c.Valid()
  {
    HandedOut(c, s) && OneChildEach(s.flight) && OncePerFrame(s.outputs) && Partition(s)
  }

  lemma FlightNumsAdd(flight: map<nat, RenderFrame>, i: nat, f: RenderFrame)
    requires i !in flight
    ensures FlightNums(flight[i := f]) == FlightNums(flight) + {f.frameNum}
  {
    var flight' := flight[i := f];
    assert flight'[i] == f;
    forall j | j in flight ensures flight[j].frameNum in FlightNums(flight') {
      assert flight'[j] == flight[j];
    }
  }

  lemma FlightNumsRemove(flight: map<nat, RenderFrame>, i: nat)
    requires i in flight
    requires forall j | j in flight && j != i :: flight[i].frameNum != flight[j].frameNum
    ensures FlightNums(flight - {i}) == FlightNums(flight) - {flight[i].frameNum}
    ensures |flight - {i}| == |flight| - 1
  {
    var flight' := flight - {i};
    forall j | j in flight && j != i ensures flight[j].frameNum in FlightNums(flight') {
      assert flight'[j] == flight[j];
    }
    assert flight'.Keys == flight.Keys - {i};
  }

  lemma DoneNumsAdd(outputs: seq<Output>, o: Output)
    ensures DoneNums(outputs + [o]) == DoneNums(outputs) + {o.frame.frameNum}
  {
    var outputs' := outputs + [o];
    assert outputs'[|outputs|] == o;
    forall k | 0 <= k < |outputs| ensures outputs[k].frame.frameNum in DoneNums(outputs') {
      assert outputs'[k] == outputs[k];
    }
  }

  lemma ConservedStepDequeue(c: Config, s: State)
    requires Shaped(c, s) && OrderInv(c, s) && CargoInv(c, s) && ConservedInv(c, s) && Enabled(c, s, Dequeue)
    ensures ConservedInv(c, Apply(c, s, Dequeue))
  {
    if s.queue[0].Frame? {
      PendingHead(c, |s.sent|, Enqueued(s));
      ConservedSend(c, s, s.server.child, Apply(c, s, Dequeue));
    }
  }

  lemma HandedOutSend(c: Config, s: State, i: nat, s': State)
    requires c.Valid() && HandedOut(c, s)
    requires s'.sent == s.sent + [Nth(c, |s.sent|)] && s'.outputs == s.outputs
    requires s'.flight == s.flight[i := Nth(c, |s.sent|)]
    ensures HandedOut(c, s')
  {
    forall j | j in s'.flight ensures IsSent(c, s', s'.flight[j]) {
      if j != i { assert IsSent(c, s, s.flight[j]); }
    }
    forall k | 0 <= k < |s'.outputs| ensures IsSent(c, s', s'.outputs[k].frame) {
      assert IsSent(c, s, s.outputs[k].frame);
    }
  }

  lemma ConservedSend(c: Config, s: State, i: nat, s': State)
    requires c.Valid() && ConservedInv(c, s) && i !in s.flight
    requires s'.sent == s.sent + [Nth(c, |s.sent|)] && s'.outputs == s.outputs
    requires s'.flight == s.flight[i := Nth(c, |s.sent|)]
    ensures ConservedInv(c, s')
  {
    HandedOutSend(c, s, i, s');
    FlightNumsAdd(s.flight, i, Nth(c, |s.sent|));
    assert OneChildEach(s'.flight) by {
      forall j | j in s.flight ensures s.flight[j].frameNum != |s.sent| + 1 {
        assert IsSent(c, s, s.flight[j]);
      }
    }
    assert Partition(s') by {
      assert Numbers(|s'.sent|) == Numbers(|s.sent|) + {|s.sent| + 1};
      assert |s.sent| + 1 !in Numbers(|s.sent|);
    }
  }

  lemma ConservedStepFinish(c: Config, s: State)
    requires Shaped(c, s) && CargoInv(c, s) && ConservedInv(c, s) && Enabled(c, s, Finish)
    ensures ConservedInv(c, Apply(c, s, Finish))
  {
    var written := Output(s.server.frame, Get(s.outSlots, s.server.frame.indexIn));
    ConservedDone(c, s, s.server.child, written, Apply(c, s, Finish));
  }

  lemma HandedOutSame(c: Config, s: State, s': State)
    requires c.Valid() && HandedOut(c, s) && s'.sent == s.sent
    requires forall i | i in s'.flight :: i in s.flight && s'.flight[i] == s.flight[i]
    requires forall k | 0 <= k < |s'.outputs| ::
      (k < |s.outputs| && s'.outputs[k] == s.outputs[k]) || IsSent(c, s, s'.outputs[k].frame)
    ensures HandedOut(c, s')
  {
    forall i | i in s'.flight ensures IsSent(c, s', s'.flight[i]) {
      assert IsSent(c, s, s.flight[i]);
    }
    forall k | 0 <= k < |s'.outputs| ensures IsSent(c, s', s'.outputs[k].frame) {
      if k < |s.outputs| && s'.outputs[k] == s.outputs[k] { assert IsSent(c, s, s.outputs[k].frame); }
    }
  }

  lemma OnceMore(outputs: seq<Output>, o: Output)
    requires OncePerFrame(outputs) && o.frame.frameNum !in DoneNums(outputs)
    ensures OncePerFrame(outputs + [o])
  {
    forall k | 0 <= k < |outputs| ensures outputs[k].frame.frameNum != o.frame.frameNum {
      assert outputs[k].frame.frameNum in DoneNums(outputs);
    }
  }

  lemma PartitionDone(s: State, i: nat, o: Output, s': State)
    requires Partition(s) && OneChildEach(s.flight) && i in s.flight && s.flight[i] == o.frame
    requires s'.sent == s.sent && s'.outputs == s.outputs + [o] && s'.flight == s.flight - {i}
    ensures Partition(s') && o.frame.frameNum !in DoneNums(s.outputs)
  {
    FlightNumsRemove(s.flight, i);
    DoneNumsAdd(s.outputs, o);
    assert o.frame.frameNum in FlightNums(s.flight);
  }

  lemma ConservedDone(c: Config, s: State, i: nat, o: Output, s': State)
    requires c.Valid() && ConservedInv(c, s) && i in s.flight && s.flight[i] == o.frame
    requires s'.sent == s.sent && s'.outputs == s.outputs + [o] && s'.flight == s.flight - {i}
    ensures ConservedInv(c, s')
  {
    assert IsSent(c, s, s.flight[i]);
    HandedOutSame(c, s, s');
    PartitionDone(s, i, o, s');
    OnceMore(s.outputs, o);
    assert OneChildEach(s'.flight);
  }

  // ----- All together -----

  ghost predicate Inv(c: Config, s: State) {
    Shaped(c, s) && OrderInv(c, s) && TokensInv(c, s) && CargoInv(c, s) && ConservedInv(c, s)
  }

  lemma InvInit(c: Config)
    requires c.Valid()
    ensures Inv(c, Init(c))
  {
  }

  lemma InvStep(c: Config, s: State, a: Action)
    requires Inv(c, s) && Enabled(c, s, a)
    ensures Inv(c, Apply(c, s, a))
  {
    TokenStep(c, s, a);
    OrderStep(c, s, a);
    CargoStep(c, s, a);
    if a == Dequeue { ConservedStepDequeue(c, s); }
    else if a == Finish { ConservedStepFinish(c, s); }
    else { ConservedFrame(c, s, a); }
  }

  lemma ConservedFrame(c: Config, s: State, a: Action)
    requires Shaped(c, s) && ConservedInv(c, s) && Enabled(c, s, a) && a != Dequeue && a != Finish
    ensures ConservedInv(c, Apply(c, s, a))
  {
    HistoryStays(c, s, a);
    ConservedSame(c, s, Apply(c, s, a));
  }

  lemma ConservedSame(c: Config, s: State, s': State)
    requires c.Valid() && ConservedInv(c, s)
    requires s'.sent == s.sent && s'.outputs == s.outputs && s'.flight == s.flight
    ensures ConservedInv(c, s')
  {
    HandedOutSame(c, s, s');
  }

  lemma CargoStep(c: Config, s: State, a: Action)
    requires Shaped(c, s) && TokensInv(c, s) && CargoInv(c, s) && Enabled(c, s, a)
    ensures CargoInv(c, Apply(c, s, a))
  {
    if ByProducer(a) { CargoStepProducer(c, s, a); }
    else if a == ServeMessage { CargoStepServe(c, s); }
    else if ByServer(a) { CargoStepServed(c, s, a); }
    else if a.ChildReceive? { CargoStepReceive(c, s, a.i); }
    else { CargoStepSend(c, s, a); }
  }

  lemma OrderStep(c: Config, s: State, a: Action)
    requires Shaped(c, s) && OrderInv(c, s) && Enabled(c, s, a)
    ensures OrderInv(c, Apply(c, s, a))
  {
    if a == Advance { OrderStepAdvance(c, s); }
    else if a == Enqueue || a == EnqueueEnd { OrderStepEnqueue(c, s, a); }
    else if ByProducer(a) { OrderStepDecode(c, s, a); }
    else if ByChild(a) { OrderStepChild(c, s, a); }
    else {
      match a
      case ServeMessage => OrderStepServe(c, s);
      case Finish => OrderStepFinish(c, s);
      case Dequeue => OrderStepDequeue(c, s);
      case Requeue => OrderStepRequeue(c, s);
    }
  }

  lemma {:induction false} PathKeepsInv(c: Config, s: State, acts: seq<Action>, t: State)
    requires Inv(c, s) && Path(c, s, acts, t)
    ensures Inv(c, t)
    decreases |acts|
  {
    if acts != [] {
      InvStep(c, s, acts[0]);
      PathKeepsInv(c, Apply(c, s, acts[0]), acts[1..], t);
    }
  }

  lemma ReachableInv(c: Config, s: State)
    requires c.Valid() && Reachable(c, s)
    ensures Inv(c, s)
  {
    var acts :| Path(c, Init(c), acts, s);
    InvInit(c);
    PathKeepsInv(c, Init(c), acts, s);
  }
}
