/** The System V message queue between the server and the renderers
    (include/ipc_queue.h, src/ipc_queue.c). */
module Ipc {

  const Q_MSG_READY := 1
  const Q_MSG_RENDER_READY := 3
  const Q_MSG_FRAME_DONE := 6
  const Q_MSG_CLIENT_START := 7
  const Q_MSG_ALL_SERVER := -Q_MSG_FRAME_DONE

  datatype RenderFrame = RenderFrame(frameNum: int, indexIn: int)

  /** What a message says. The first three go to the server, the others to one child. */
  datatype Body =
    | Ready
    | RenderReady
    | FrameDone(frame: RenderFrame)
    | ChildExit
    | ChildRenderMode
    | ChildRenderFrame(frame: RenderFrame)

  /** `child` is the sender of a server message and the addressee of a child message. */
  datatype Message = Message(child: nat, body: Body) {
    /** The `mtype` that queueSendBinary is given for this message. */
    function Type(): int {
      match body
      case Ready => Q_MSG_READY
      case RenderReady => Q_MSG_RENDER_READY
      case FrameDone(_) => Q_MSG_FRAME_DONE
      case _ => Q_MSG_CLIENT_START + child
    }
  }

  predicate Matches(m: Message, msgType: int) {
    if msgType == 0 then true else if msgType > 0 then m.Type() == msgType else m.Type() <= -msgType
  }

  /** The position msgrcv takes its message from, or -1 when it has to wait. */
  function Select(q: seq<Message>, msgType: int): (k: int)
    ensures -1 <= k < |q|
  {
    if |q| == 0 then -1
    else
      var last := q[|q| - 1];
      var k := Select(q[..|q| - 1], msgType);
      if Matches(last, msgType) && (k == -1 || (msgType < 0 && last.Type() < q[k].Type()))
      then |q| - 1 else k
  }

  /** The oldest message of the wanted type is taken or, for a negative type, the oldest one of
      the lowest type that is wanted; msgrcv waits just when there is none. */
  lemma {:induction false} SelectIsOldestLowest(q: seq<Message>, msgType: int)
    ensures Select(q, msgType) == -1 <==> forall j | 0 <= j < |q| :: !Matches(q[j], msgType)
    ensures var k := Select(q, msgType); k >= 0 ==> Matches(q[k], msgType)
    ensures var k := Select(q, msgType); k >= 0 ==> forall j | 0 <= j < |q| && Matches(q[j], msgType) ::
      if msgType < 0 && q[j].Type() != q[k].Type() then q[k].Type() < q[j].Type() else k <= j
  {
    if |q| > 0 {
      var front := q[..|q| - 1];
      SelectIsOldestLowest(front, msgType);
      assert forall j | 0 <= j < |front| :: q[j] == front[j];
    }
  }

  lemma TakenByServer(q: seq<Message>)
    ensures var k := Select(q, Q_MSG_ALL_SERVER);
      k >= 0 ==> q[k].body.Ready? || q[k].body.RenderReady? || q[k].body.FrameDone?
  {
    SelectIsOldestLowest(q, Q_MSG_ALL_SERVER);
  }

  lemma TakenByChild(q: seq<Message>, i: nat)
    ensures var k := Select(q, Q_MSG_CLIENT_START + i); k >= 0 ==>
      q[k].child == i && (q[k].body.ChildExit? || q[k].body.ChildRenderMode? || q[k].body.ChildRenderFrame?)
  {
    SelectIsOldestLowest(q, Q_MSG_CLIENT_START + i);
  }

  /** The order in which the server takes what has arrived. */
  function Turn(body: Body): nat {
    if body.Ready? then 0 else if body.RenderReady? then 1 else 2
  }

  predicate ForServer(m: Message) {
    m.body.Ready? || m.body.RenderReady? || m.body.FrameDone?
  }

  /** Cards that start up come first, then cards that are ready to render, then finished frames; of
      one kind the oldest is taken, and nothing meant for a card. */
  lemma ServerOrder(q: seq<Message>)
    ensures var k := Select(q, Q_MSG_ALL_SERVER);
      && (k == -1 <==> forall j | 0 <= j < |q| :: !ForServer(q[j]))
      && (k >= 0 ==> ForServer(q[k]))
    ensures var k := Select(q, Q_MSG_ALL_SERVER);
      k >= 0 ==> forall j | 0 <= j < |q| && ForServer(q[j]) ::
        Turn(q[k].body) < Turn(q[j].body) || (Turn(q[k].body) == Turn(q[j].body) && k <= j)
  {
    SelectIsOldestLowest(q, Q_MSG_ALL_SERVER);
    assert forall m: Message :: Matches(m, Q_MSG_ALL_SERVER) <==> ForServer(m);
  }

  function RemoveAt(q: seq<Message>, k: nat): seq<Message>
    requires k < |q|
  {
    q[..k] + q[k + 1..]
  }

  lemma RemoveInFront(q: seq<Message>, k: nat)
    requires k < |q| - 1
    ensures RemoveAt(q, k) == RemoveAt(q[..|q| - 1], k) + [q[|q| - 1]]
  {
    var r := RemoveAt(q[..|q| - 1], k) + [q[|q| - 1]];
    assert forall j | 0 <= j < |q| - 1 :: RemoveAt(q, k)[j] == r[j];
  }

  /** Behind messages that are not wanted, a wanted one is the one taken. */
  lemma SelectLast(q: seq<Message>, m: Message, msgType: int)
    requires Select(q, msgType) == -1 && Matches(m, msgType)
    ensures Select(q + [m], msgType) == |q| && RemoveAt(q + [m], |q|) == q
  {
    assert (q + [m])[..|q|] == q;
  }

  /** Messages that concern child `i`. */
  function Count(q: seq<Message>, i: nat): nat {
    if |q| == 0 then 0 else Count(q[..|q| - 1], i) + (if q[|q| - 1].child == i then 1 else 0)
  }

  lemma CountAppend(q: seq<Message>, m: Message, i: nat)
    ensures Count(q + [m], i) == Count(q, i) + (if m.child == i then 1 else 0)
  {
    assert (q + [m])[..|q|] == q;
  }

  lemma {:induction false} CountRemove(q: seq<Message>, k: nat, i: nat)
    requires k < |q|
    ensures Count(q, i) == Count(RemoveAt(q, k), i) + (if q[k].child == i then 1 else 0)
  {
    if k == |q| - 1 {
      assert RemoveAt(q, k) == q[..|q| - 1];
    } else {
      var front := q[..|q| - 1];
      CountRemove(front, k, i);
      RemoveInFront(q, k);
      CountAppend(RemoveAt(front, k), q[|q| - 1], i);
    }
  }

  lemma {:induction false} CountPositive(q: seq<Message>, k: nat)
    requires k < |q|
    ensures Count(q, q[k].child) > 0
  {
    if k < |q| - 1 {
      assert q[..|q| - 1][k] == q[k];
      CountPositive(q[..|q| - 1], k);
    }
  }

  lemma {:induction false} CountWitness(q: seq<Message>, i: nat) returns (k: nat)
    requires Count(q, i) > 0
    ensures k < |q| && q[k].child == i
  {
    if q[|q| - 1].child == i {
      k := |q| - 1;
    } else {
      k := CountWitness(q[..|q| - 1], i);
    }
  }
}
