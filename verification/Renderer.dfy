/** The message loop of one renderer process (do_child in src/render_child.c). */
module Renderer {
  import opened Ipc
  import opened Layout
  import opened Pipeline

  /** What child i answers to a message. */
  function Replies(i: nat, body: Body): seq<Message> {
    match body
    case ChildRenderMode => [Message(i, RenderReady)]
    case ChildRenderFrame(f) => [Message(i, FrameDone(f))]
    case _ => []
  }

  /** How the child's work on a message ends in the pipeline. */
  function Completion(i: nat, body: Body): Action {
    if body.ChildRenderMode? then ChildConfigured(i) else ChildRendered(i)
  }

  /** A round of the loop is two steps of the pipeline, the message taken and the work completed, and
      the answer is what the second one sends; being told to exit is one step without an answer. */
  lemma RoundIsSteps(c: Config, s: State, i: nat, body: Body)
    requires Shaped(c, s) && i < |s.children| && s.children[i] == Waiting
    requires body.ChildExit? || body.ChildRenderMode? || body.ChildRenderFrame?
    ensures var taken := Accept(s, i, body);
      && Shaped(c, taken)
      && (body.ChildExit? ==> taken.children[i] == Exited && taken.kernel == s.kernel + Replies(i, body))
      && (!body.ChildExit? ==>
            Enabled(c, taken, Completion(i, body)) &&
            Apply(c, taken, Completion(i, body)).children[i] == Waiting &&
            Apply(c, taken, Completion(i, body)).kernel == s.kernel + Replies(i, body))
  {
  }

  class RenderChild {
    const me: nat
    const sharedMem: SharedMem
    var mode: int
    var width: nat
    var height: nat
    var framesDone: nat
    var done: bool

    constructor (childNum: nat, shared: SharedMem)
      ensures me == childNum && sharedMem == shared && framesDone == 0 && !done
    {
      me, sharedMem := childNum, shared;
      mode, width, height, framesDone, done := 0, 0, 0, 0, false;
    }

    /** CHILD_RENDER_MODE. */
    method EnterMode(newMode: int, cols: nat, rows: nat) returns (reply: Message)
      modifies this
      ensures mode == newMode && width == cols && height == rows && framesDone == old(framesDone) && done == old(done)
      ensures reply == Message(me, RenderReady)
    {
      mode, width, height := newMode, cols, rows;
      reply := Message(me, RenderReady);
    }

    /** The segment is laid out for frames of this size. */
    predicate Fits(cols: nat, rows: nat)
      reads sharedMem
    {
      && cols >= 1 && rows >= 1 && sharedMem.frameSize == FrameSize(cols, rows)
      && sharedMem.offsetIn == 0 && sharedMem.offsetOut == sharedMem.frameSize * sharedMem.frameCountIn
    }

    /** One round of the loop: acts on a message and answers it, unless it says to exit. */
    method Handle(body: Body, newMode: int, cols: nat, rows: nat) returns (replies: seq<Message>)
      requires !done && (body.ChildExit? || body.ChildRenderMode? || body.ChildRenderFrame?)
      requires body.ChildRenderFrame? ==> 0 <= body.frame.indexIn && Fits(width, height)
      modifies this
      ensures replies == Replies(me, body) && (done <==> body.ChildExit?)
      ensures framesDone == old(framesDone) + if body.ChildRenderFrame? then 1 else 0
      ensures body.ChildRenderMode? ==> mode == newMode && width == cols && height == rows
      ensures !body.ChildRenderMode? ==> mode == old(mode) && width == old(width) && height == old(height)
    {
      replies := [];
      match body {
        case ChildExit =>
          done := true;
        case ChildRenderMode =>
          var ready := EnterMode(newMode, cols, rows);
          replies := [ready];
        case ChildRenderFrame(frame) =>
          var input, output, finished := RenderFrame(frame);
          replies := [finished];
      }
    }

    /** CHILD_RENDER_FRAME: reads the planes of one input slot, writes those of the output slot of
        the same index, and stays inside both. */
    method RenderFrame(frame: RenderFrame) returns (input: Planes, output: Planes, reply: Message)
      requires 0 <= frame.indexIn && Fits(width, height)
      modifies this`framesDone
      ensures input == ChildPlanes(SlotBytes(sharedMem.frameSize, frame.indexIn), width, height)
      ensures var slot := SlotBytes(sharedMem.frameSize, sharedMem.frameCountIn + frame.indexIn);
        output == ChildPlanes(slot, width, height)
      ensures var slot := SlotBytes(sharedMem.frameSize, frame.indexIn);
        input.y.Within(slot) && input.u.Within(slot) && input.v.Within(slot)
      ensures var slot := SlotBytes(sharedMem.frameSize, sharedMem.frameCountIn + frame.indexIn);
        output.y.Within(slot) && output.u.Within(slot) && output.v.Within(slot)
      ensures framesDone == old(framesDone) + 1
      ensures reply == Message(me, FrameDone(frame))
    {
      input := PlanesAt(sharedMem.offsetIn + sharedMem.frameSize * frame.indexIn);
      output := PlanesAt(sharedMem.offsetOut + sharedMem.frameSize * frame.indexIn);
      framesDone := framesDone + 1;
      reply := Message(me, FrameDone(frame));

      SlotStart(sharedMem.frameSize, sharedMem.frameCountIn, frame.indexIn);
    }

    /** The three plane pointers into the slot that starts at `frame`. */
    method PlanesAt(frame: nat) returns (p: Planes)
      requires width >= 1 && height >= 1
      ensures var slot := Range(frame, frame + FrameSize(width, height));
        p == ChildPlanes(slot, width, height) && p.y.Within(slot) && p.u.Within(slot) && p.v.Within(slot)
    {
      var stride, chroma := width * height, (width / 2) * (height / 2);
      var y := frame;
      var u := y + stride;
      var v := u + stride / 4;
      p := Planes(Range(y, y + stride), Range(u, u + chroma), Range(v, v + chroma));
      ChildStaysInSlot(Range(frame, frame + FrameSize(width, height)), width, height);
    }
  }
}
