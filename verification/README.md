# gputrans: the frame pipeline, the denoiser, the queue and the list, verified

gputrans decodes a video in one thread, hands the frames to renderer processes, one for each
graphics card, and writes what comes back. This project models how frames travel, what the
denoiser does to them, and the two containers everything is built on, and proves what they promise
for every input and every interleaving. `dafny verify dfyconfig.toml` checks all of it.

## What is modelled

**The pipeline** (`Slots`, `Ipc`, `InputRing`, `Pipeline`, `PipelineProtocol`, `PipelineRing`,
`PipelineSafety`, `PipelineRuns`, `PipelineProgress`, `PipelineDeadlock`, `Parent`, `Renderer`, `Layout`,
`ShippedSizes`). The decoder thread, the server loop and any number of renderers are one machine. Its
steps are the program points at which they act on what they share: the ring test, decoding into a
slot, marking it used, queueing the frame, moving `tailIn`; taking a message, taking a frame back,
fetching the next one, putting the end marker back; a child starting, taking a message, finishing. A
run is any sequence of such steps. Each slot also holds the number of the picture that was last put there, so that an
overwritten frame can be seen. `Parent.Globals` has the same steps as methods over the globals and
arrays of the program, each proved to do what the machine does, and whole rounds of the decoder's and
the server's loop that compose them.

- Whatever the sizes, frames are handed out as 1, 2, 3, ..., each child has exactly one turn at any
  time, no frame is lost or written twice, the end marker stays last, and no run has more than
  10·length + 8·children + 3 steps.
- The slot ring keeps frames intact on every run *if and only if* the sizes are safe: the file fits
  in the ring, or the queue, the capable cards and the producer's hand together hold fewer frames
  than there are slots (with one card: no more than there are slots). Otherwise some run decodes
  over frame 1 before its card has taken it, and then writes another picture as frame 1. So every
  picture written is that of its own frame, on all runs, *if and only if* the sizes are safe or no
  card is capable (`PipelineRuns.OutputsRightIff`). The bound that counts queue, cards and hand up
  to exactly the ring size is one frame too generous for two or more cards: when a later frame
  comes back first, `headIn` becomes 0, and the ring test, which had looked at -1, is already behind
  the producer (`PipelineRuns.OverwriteAfterHandOver`).
- The program sizes queue and ring by the cards that are configured, but how many of them are
  capable is known only once they report. With m capable cards, a queue table of q slots and a ring
  of F, a file longer than the ring is written right on all runs if and only if m + q < F, or
  m + q = F and m = 1, or m = 0 (`ShippedSizes.ShippedIsIntactIff`). If all cards are capable that
  means one card, or two and at least seven input slots. If the segment has room for all the slots
  that are wanted, it means at most two configured cards, or at most four with no more than one
  capable (`ShippedSizes.RoomyIsIntactIff`). That longer files can go wrong with all other cards is
  a defect of the program, not of the model.
- The ring is the largest that is wanted or fits, and the program starts just when ten frames fit,
  unless the cast of the number of frames to int loses bits: a segment for 2^31 frames is refused as
  too small (`Layout.HugeSegmentIsRefused`).
- With safe sizes, frames that are out lie in different slots, and used slots lie between `headIn` and
  `tailIn`.
- For all sizes, safe or not, server and producer can come to wait for each other if and only if
  there are two capable cards and the file has at least `frameCountIn - 1` frames, or there is one,
  the queue holds at least `frameCountIn - 1` items and the file has at least
  `2 * frameCountIn - 1` frames. In the second case the use count of a slot goes below zero, which
  counts as used, and `headIn` stays on that slot. As shipped, with room for all slots, a lone
  capable card meets it only if five cards or more are configured. Where it cannot happen, every run
  that goes on as long as it can writes each frame once.

**The denoiser** (`Shaders`, `Sums`, `MotionSearch`, `Gpu`, `CoarseSearch`, `FineSearch`, `Denoise`,
`Clips`). Shaders are functions on exact reals. A texture is what a sampler returns for any
coordinates; a place on the edge between two texels is in the one that begins there, as OpenGL's rule
for nearest sampling says. The texture handles of `src/cg_interface.c` are a map from roles to handles
that is changed in place by draws and swaps.

- Handles always name different textures, each of the size its role was created with; no draw has its
  target among the sources it is declared with, or leaves the target; the early returns for a source
  that equals the target never happen.
- `SAD` leaves the sum of the 64 differences and 64 times the penalty at each pixel; the halving
  loop of `vector_update` makes exact block sums of it when the sizes are whole blocks.
- `mark_low_contrast_blocks` and `mb_search_44` leave each block with the vector (0, 0) if no part
  of any of its 64 pixels differs visibly, and otherwise with the cheapest of all offsets, the last
  in scan order among equals.
- All three parts of a pixel count in the cost of an offset, which comes down to its penalty just
  where no part of any pixel under the block differs.
- At sizes that are multiples of 8, each round of a finer search leaves a block its vector v or takes it
  on to 2v and the offset of the round, so vectors never come to cost more; after `mb_search_11` no
  block costs more than leaving it where it is.
- Four defects of the program keep motion from being compensated. The finer searches clear the wrong
  one of the two accumulators, so their costs come on top of what the round before left
  (`FineSearch.SummedIsTried`). They read the vector of a block for the pixels around its corner, most
  of which are outside it (`FineSearch.VectorIsReadAround`). `SAD_halfpel` compares pictures that
  `move_frame` makes only of the vector 0 (`FineSearch.HalfpelIsMovedIff`). And a motion that the
  search has matched exactly is compensated by moving the average *if and only if* there was none,
  since the search moves the frame and `move_frame` the average, the same way
  (`FineSearch.MatchIsCompensatedIff`).
- `vector_badcheck` halves its map until it is one block high or wide and reads one pixel: where the
  halvings are exact, the number it gives is that of the bad blocks in the square at the origin, and
  the rest of the picture is not counted.
- Loading a picture and unloading it gives back all three planes. Each frame of a clip is a step from
  the average and the output that the one before has left, or from the frame itself in a new scene:
  the average is moved along the vectors and divides the way to
  the frame as 1 : delay; it is corrected towards the frame not at all up to correct_thresh, fully
  from twice that on, and in between by a part that grows evenly; it is mixed with the last output in
  the same manner; the result is sharpened and shown (`Denoise.FrameStep`).
- Whatever the textures held before, each picture before sharpening is within correct_thresh +
  pp_thresh/4 of the input in luma and within correct_thresh + pp_thresh in chroma, and these bounds
  are tight.
- After a change from one flat picture to another that is nowhere visible, no new scene is announced in
  the whole clip, and the average approaches the new picture by the factor delay/(delay + 1) with
  each frame (`Clips.FlatClip`).

**The queue** (`QueueSizing`, `BitMask`, `QueueModel`, `QueueRemove`, `BlockingQueue`, `QueueWaiting`,
`LostWakeup`).
`BlockingQueue.QueueObject` is the object with its indices, flags and table; `QueueModel` says what
its methods make of a queue value, and that this is a bounded first-in-first-out sequence.
`QueueWaiting` is the monitor with sleeping threads, signals that are sent on flag transitions only, and
spurious wakeups.

- A wakeup can get lost on a side if and only if that side has two callers or more and the queue
  has room for two items.
- `QueueRemoveItem` deletes just the item meant on its own window, head to tail with both included.
  On a queue that was filled by `QueueEnqueueItem` it does so if and only if the table has two
  slots, because there the items lie from tail to head.

**The list and the log sweep** (`LinkedList`, `Logging`). Items carry their own links. Adding,
removing and sweeping while removing keep the links equal to one ghost sequence of items.

`move_frame` takes `int()` of a pair; the model takes it of both parts. Where code and comments
disagree the model follows the code: `block_contrast_thresh` is commented as 8/64 but is an `int` and
so 0 (src/cg_interface.c:151), and `QueueRemoveItem` takes head and tail the other way round than the
rest of the queue does.

## Model

| member | source | states |
|---|---|---|
| Ipc.SelectIsOldestLowest | src/ipc_queue.c:91-109 | a receive takes the oldest message of the wanted type or, for a negative type, the oldest of the lowest wanted type, and waits just when there is none |
| Ipc.TakenByServer | include/ipc_queue.h:38-49 | receiving with Q_MSG_ALL_SERVER gives messages to the server only |
| Ipc.TakenByChild | src/render_child.c:141-149 | receiving with its own type gives a child only what is addressed to it |
| Ipc.ServerOrder | include/ipc_queue.h:38-49 | the server takes starting cards before ready ones and these before finished frames, the oldest of a kind first, and nothing meant for a card |
| Slots.SlotInjective | src/video_in.c:353-387 | frames less than a lap apart are in different slots |
| InputRing.UsedAfter | src/video_in.c:400 | taking a frame back changes one use count, by one |
| InputRing.HeadAfter | src/video_in.c:402-419 | headIn ends on a slot that counts as used or on tailIn |
| InputRing.ScanStops | src/video_in.c:410-412 | the reclaim scan passes over free slots only and stops at the first used one |
| InputRing.ReclaimKeepsLap | src/video_in.c:396-420 | videoFinished moves headIn forward within the lap, past free slots only, onto a used slot or onto tailIn |
| PipelineProtocol.Receives | src/render_child.c:141-149 | the message a child acts on is one of its own |
| PipelineProtocol.Serves | src/main.c:153-161 | the message the server acts on is one for it |
| PipelineProtocol.OrderStep | src/video_in.c:352-390 | every step keeps sent and queued frames together the sequence 1, 2, 3, ... with the end marker last |
| PipelineProtocol.TokenStep | src/main.c:153-208 | every step keeps exactly one turn for each child that has not exited |
| PipelineProtocol.CargoStep | src/render_child.c:168-215 | every step keeps each message, child and server state carrying the frame its child has been given |
| PipelineProtocol.ServedChildIsQuiet | src/main.c:188-204 | while the server deals with a child, that child waits and no message concerns it |
| PipelineProtocol.ConservedStepDequeue | src/main.c:211-222 | handing a frame out keeps done and in-flight frames a partition of those sent |
| PipelineProtocol.ConservedStepFinish | src/main.c:193-203 | so does taking one back |
| PipelineProtocol.ReachableInv | src/main.c:153-256 | order, tokens, cargo and conservation hold in every reachable state, for all sizes |
| PipelineRing.FlightBound | src/main.c:188-204 | no more frames are in flight than there are capable cards |
| PipelineRing.StartBound | src/video_in.c:341 | until a frame comes back, queued frames are bounded by the queue and the cards |
| PipelineRing.FullRingBlocks | src/video_in.c:353-355 | the ring test sees a lap that is one slot short of full |
| PipelineRing.DecodeWithinLap | src/video_in.c:361-371 | with safe sizes the slot decoded into is that of no frame that is out |
| PipelineRing.RingStepMark | src/video_in.c:379 | marking keeps used slots and frames that are out in step |
| PipelineRing.RingStepFinish | src/video_in.c:396-420 | taking a frame back keeps the window from headIn, whichever frame it is |
| PipelineRing.HandOver | src/video_in.c:74 | the first frame to come back leaves the producer room for what it has begun, so the start-up bound turns into the window |
| PipelineRing.ReachableRing | src/video_in.c:352-420 | with safe sizes the ring invariant holds in every reachable state |
| PipelineSafety.SafeIsIntact | src/video_in.c:352-390 | with safe sizes every frame on the queue or with a child still has its picture in its slot |
| PipelineSafety.SafeKeepsApart | src/video_in.c:371-387 | with safe sizes frames that are out have different slots, all marked, none of them about to be decoded into |
| PipelineSafety.UsedLiesInWindow | src/video_in.c:396-420 | once a frame has come back, used slots lie from headIn up to tailIn, and tailIn itself is used only between mark and advance |
| PipelineSafety.RenderedIsOwn | src/render_child.c:193-201 | no frame that waits to be written has the output slot a child renders into |
| PipelineRuns.OverwriteFromQueue | src/video_in.c:352-387 | if queue and producer fill the ring, frame 1 can be overwritten while it is on the queue |
| PipelineRuns.OverwriteAtStart | src/video_in.c:74 | if queue, producer and cards fill the ring, frame 1 can be overwritten before its card takes it and before any frame comes back |
| PipelineRuns.OverwriteAfterHandOver | src/video_in.c:402-419 | with two cards it can be, too, when the sizes just fit and a later frame comes back first |
| PipelineRuns.OverwriteHappens | src/video_in.c:352-390 | for all sizes that are not safe, some run overwrites frame 1 while the message that hands it out still waits for its card |
| PipelineRuns.IntactIffSafe | src/video_in.c:341-390 | all runs keep all frames intact if and only if the sizes are safe |
| PipelineRuns.WrongPicture | src/render_child.c:170-201 | from there the run goes on to write frame ringSize + 1 as frame 1 |
| PipelineRuns.OutputsRightIff | src/main.c:193-199 | on all runs every picture written is the one of the frame it is written for, if and only if the sizes are safe or no card is capable |
| PipelineRuns.DeadlockStays | src/video_in.c:353-355 | once server and producer wait for each other, no step ends it or writes a picture |
| PipelineRuns.DeadlockHappens | src/main.c:211-215 | two cards and frameCountIn - 1 frames are enough to get there, for any ring |
| PipelineRuns.NoDeadlock | src/main.c:211-215 | with safe sizes, one card or a file that leaves a slot to spare rules it out |
| PipelineDeadlock.LoneStep | src/video_in.c:396-420 | for all sizes every step keeps the use count of a slot in its first lap right, and headIn on a used slot or a former tail when no frame is out |
| PipelineDeadlock.NoLoneDeadlock | src/main.c:211-215 | with one card and any sizes, a file of less than two laps less one frame rules the wait out |
| PipelineDeadlock.LoneDeadlockHappens | src/video_in.c:400-412 | with one card, a queue that holds a lap less one frame and a file of two laps less one frame, it happens on some run |
| PipelineDeadlock.DeadlockIff | src/main.c:211-215 | for all sizes, the wait is reachable if and only if CanDeadlock holds |
| PipelineProgress.DispatchedInOrder | src/video_in.c:371-387 | the k-th frame handed out is frame k in slot (k - 1) mod frameCountIn |
| PipelineProgress.OneTokenEach | src/main.c:153-208 | a child that has not exited computes, is being served or has one message pending, exactly one of these |
| PipelineProgress.FramesAreConserved | src/main.c:193-203 | frames decoded are those written, in flight, queued and in the producer's hand, with no overlap |
| PipelineProgress.EndMarkerIsLast | src/main.c:216-219 | the end marker is behind every frame, putting it back never waits, and no child is sent it |
| PipelineProgress.WorkFalls | src/main.c:153-256 | every step of every run brings a nonnegative measure down |
| PipelineProgress.RunsAreBounded | src/video_in.c:352-390 | no run has more than 10 steps a frame, 8 a child, and 3 |
| PipelineProgress.StuckMeansDone | src/main.c:211-237 | a run can stop only when all children have exited or in the deadlock |
| PipelineProgress.AllExitedMeansAllWritten | src/main.c:229-237 | when all children have exited, every frame of the file has been written once |
| PipelineDeadlock.EveryRunCompletes | src/main.c:153-256 | where the wait cannot be reached, every run that cannot go on has written each frame once, with safe sizes from its own picture |
| Parent.Globals.constructor | src/video_in.c:74-76 | the globals start as the initial state |
| Parent.Globals.TestRing | src/video_in.c:353-355 | one look at the ring is the step that passes it, or changes nothing |
| Parent.Globals.Decode | src/video_in.c:361-371 | decoding, or the end of the file, as steps of the machine |
| Parent.Globals.MarkUsed | src/video_in.c:379 | the mark as a step |
| Parent.Globals.EnqueueFrame | src/video_in.c:385 | queueing as a step |
| Parent.Globals.AdvanceTail | src/video_in.c:387 | moving tailIn as a step |
| Parent.Globals.EnqueueEndMarker | src/video_in.c:362-368 | queueing the end marker as a step |
| Parent.Globals.VideoFinished | src/video_in.c:396-420 | the scan loop leaves used[] and headIn as InputRing.VideoFinished says |
| Parent.Globals.ReceiveAndServe | src/main.c:153-207 | the message switch as a step |
| Parent.Globals.FinishFrame | src/main.c:193-199 | videoOut and videoFinished as a step |
| Parent.Globals.SendNextFrame | src/main.c:211-256 | getNextFrame and sendFrame for a frame as a step |
| Parent.Globals.PutBackEndMarker | src/main.c:216-237 | the end marker goes back and the child is told to exit |
| Parent.Globals.VideoInRound | src/video_in.c:352-390 | where the queue has room (else the call waits), a round changes nothing, or decodes the next frame into the tail slot, marks and queues it and moves on, or queues the end marker, and stays on the reachable states |
| Parent.Globals.ServerRound | src/main.c:153-237 | where message and item are there (else the calls wait), the selected message is taken and exactly one is sent to the same child: the greeting by capability, the next frame, or the exit if only the end marker is left, which stays; a finished frame is written with the picture of its slot, which is used once less |
| Parent.Globals.TakeMessage | src/main.c:153-190 | the message is off the queue, a starting card is greeted, and for others the server goes on with their frame |
| Parent.Globals.TakeBack | src/main.c:193-199 | the frame is written with the picture of its output slot, one use count falls by one, and headIn stays or comes to a used slot or the tail |
| Parent.Globals.SendFrame | src/main.c:211-256 | the first item goes to the child and off the queue, or the end marker stays and the child is told to exit |
| Renderer.RoundIsSteps | src/render_child.c:140-219 | a round of the child's loop is the message taken and the work completed, and its replies are what the pipeline gets from these steps |
| Renderer.RenderChild.Handle | src/render_child.c:150-219 | each message gets its one reply, except that exit ends the loop without any; mode and size are taken over from a mode message only, and each frame is counted |
| Renderer.RenderChild.EnterMode | src/render_child.c:157-168 | takes over the size and answers that it is ready |
| Renderer.RenderChild.RenderFrame | src/render_child.c:170-214 | reads inside one input slot, writes inside the output slot of the same index, and reports that frame |
| Layout.SlotsFit | src/video_in.c:261-298 | there are at least five input slots, as many output slots, and all of them fit in the segment |
| Layout.RingIsLargest | src/video_in.c:274-288 | there are as many slots as are wanted or as fit, if and only if the number of frames keeps its bits that matter in the cast to int |
| Layout.StartsIffTenFit | src/video_in.c:261-272 | the program starts exactly when the cast number of frames is ten or more, which below 2^31 frames is when ten frames fit |
| Layout.HugeSegmentIsRefused | src/video_in.c:261-272 | a segment for 2^31 frames is refused as too small |
| Layout.SlotsApart | src/video_in.c:305-317 | slots share no byte and lie in the segment |
| Layout.ChildStaysInSlot | src/render_child.c:174-200 | a child's planes stay in the slot and apart for every size, and are those of the decoder if and only if both sizes are even |
| Layout.OutputSlotIsSound | src/render_child.c:123-125 | the address a child writes to is that of an output slot, which no input slot and no other output slot touches |
| Layout.FillStarts | src/video_in.c:305-317 | each picture starts at its slot |
| Layout.CountSlots | src/video_in.c:261-288 | the limits as SizeRing has them |
| Layout.SharedMem.InitVideoIn | src/video_in.c:249-318 | sizes, offsets and picture starts agree with the slot layout |
| ShippedSizes.ShippedIsIntactIff | src/video_in.c:274-288 | for any configured and capable cards as the program sizes queue and ring: exactly which files are kept intact, and written right, on all runs |
| ShippedSizes.ShippedDeadlocksIff | src/video_in.c:341 | and exactly when server and producer can come to wait for each other |
| ShippedSizes.AllCapableIsIntactIff | src/video_in.c:274-288 | with all cards capable, files longer than the ring are written right if and only if there is one card, or two and seven slots |
| ShippedSizes.RoomyIsIntactIff | src/video_in.c:274-288 | both conditions where the segment has room for all slots that are wanted, by configured and capable cards |
| QueueSizing.NumElementsIsLeast | src/queue.c:65-81 | the table has the least power of two that is no less than the request, or 2^31 slots when there is no such 32-bit number |
| BitMask.BitAndBit | src/queue.c:156 | the and of two numbers, bit by bit |
| BitMask.MaskIsMod | src/queue.c:156 | masking with 2^i - 1 is the remainder by 2^i |
| QueueModel.CreateIsEmpty | src/queue.c:83-106 | a new queue is valid, empty and as large as NumElements says |
| QueueModel.FlagsAgree | src/queue.c:183-203 | flags and QueueUsed agree with the number of items, which is at most one less than the table |
| QueueModel.EnqueueAppends | src/queue.c:152-161 | enqueueing appends |
| QueueModel.DequeueRemoves | src/queue.c:293-303 | dequeueing removes the oldest item |
| QueueModel.ClearEmpties | src/queue.c:313-345 | clearing leaves an empty, valid queue |
| QueueModel.OneSlotDrops | src/queue.c:152-161 | a queue of one slot accepts items and loses them |
| QueueModel.StepRefines | src/queue.c:125-303 | every operation does to the contents, and answers, what it does on a bounded sequence |
| QueueModel.QueueIsFifo | src/queue.c:125-345 | any sequence of operations answers as a bounded first-in-first-out sequence does |
| BlockingQueue.RoundUp | src/queue.c:65-81 | the rounding loop ends at NumElements |
| BlockingQueue.QueueObject.constructor | src/queue.c:52-122 | QueueCreate gives the empty queue |
| BlockingQueue.QueueObject.UpdateConditions | src/queue.c:171-216 | the flags are brought up to date, and signals go out just when one is cleared |
| BlockingQueue.QueueObject.EnqueueItem | src/queue.c:125-167 | rejects NULL, waits when full, and else appends |
| BlockingQueue.QueueObject.DequeueItem | src/queue.c:220-309 | waits when empty, and else takes the oldest item |
| BlockingQueue.QueueObject.Clear | src/queue.c:312-345 | nothing is left |
| BlockingQueue.QueueObject.Used | src/queue.c:348-359 | the number of items |
| BlockingQueue.QueueObject.CloseGap | src/queue.c:430-455 | the moves are those of QueueRemove.CloseGap |
| BlockingQueue.QueueObject.RemoveItem | src/queue.c:406-460 | state and returned index are those of QueueRemove.RemoveItem |
| QueueRemove.CloseGapShifts | src/queue.c:430-455 | wrapped or not, every slot from index up to the tail takes over the one after it and no other slot changes |
| QueueRemove.RemoveItemDeletes | src/queue.c:406-460 | on its own window exactly the item at index is deleted and the others keep their order |
| QueueRemove.RemoveItemReturns | src/queue.c:406-460 | the caller is sent on to the slot before, or to the same slot at the head |
| QueueRemove.RemoveItemOnFifo | src/queue.c:406-460 | on the items of a queue in use it deletes the item if and only if the table has two slots |
| QueueWaiting.MonitorIsQueue | src/queue.c:171-216 | flags and signals of the monitor are those of the queue |
| QueueWaiting.NoLostWakeup | src/queue.c:140-161 | a lone consumer sleeps unsignalled only on an empty queue, a lone producer only on a full one |
| LostWakeup.NeverLost | src/queue.c:256-303 | with one caller on the side, or room for one item, no wakeup is lost |
| LostWakeup.LoseFrom | src/queue.c:205-216 | with two callers and room for two items one is lost on some run |
| LostWakeup.LostIff | src/queue.c:140-303 | a wakeup can be lost if and only if there are two callers on the side and room for two items |
| LinkedList.List.Add | src/linked_list.c:96-152 | links and ends say that the item was put at its end of the sequence |
| LinkedList.List.Remove | src/linked_list.c:155-201 | links and ends say that the item was taken out; an item of another list changes nothing |
| Logging.RemoveUndoesAdd | src/linked_list.c:96-201 | removing an item just added gives the sequence back |
| Logging.KeptIsFilter | src/logging.c:218-244 | what is kept are the items that are not dropped, each as often as before and in order |
| Logging.LogWrite | src/logging.c:342-356 | a write that fails gives the output up for good |
| Logging.OutputRemove | src/logging.c:307-340 | the output is taken off the list |
| Logging.Visit | src/logging.c:219-244 | an output is dropped after its turn if it was given up before or its write fails |
| Logging.LogToAll | src/logging.c:216-246 | the sweep visits every output once, in order, and leaves just those that are not given up |
| Logging.LogFileRemove | src/logging.c:383-419 | the first file of that name is taken off, or nothing changes and the caller is told |
| Shaders.CorrectPartBound | src/yuvdenoise.cg:158-186 | the corrected value is within the threshold of the frame, whatever the average |
| Shaders.Pass2LumaBound | src/yuvdenoise.cg:188-215 | luma moves by at most a quarter of the threshold |
| Shaders.Pass2ChromaBound | src/yuvdenoise.cg:188-215 | chroma moves by at most the threshold |
| Shaders.ErrorBound | src/yuvdenoise.cg:158-215 | both shaders together keep within correct_thresh + pp_thresh/4 and correct_thresh + pp_thresh of the frame |
| Shaders.ErrorBoundIsTight | src/yuvdenoise.cg:158-215 | all three bounds are reached at once |
| Shaders.AverageDivides | src/yuvdenoise.cg:140-156 | the new average divides the way from the old one to the frame as 1 : delay |
| Shaders.CorrectPartPulls | src/yuvdenoise.cg:158-186 | no correction up to the threshold, full correction from twice that on, and in between a part that grows evenly |
| Shaders.Pass2LumaBlends | src/yuvdenoise.cg:188-215 | the last luma is pulled by a part that grows evenly with the distance, fully from the threshold on |
| Shaders.Pass2ChromaBlends | src/yuvdenoise.cg:188-215 | the last chroma is first moved a third of the way and then corrected |
| Shaders.SharpenScales | src/yuvdenoise.cg:217-242 | luma becomes the legal value nearest to one at `sharpen` times the distance from the mean of two by two, chroma the nearest legal one |
| Shaders.ContrastScales | src/yuvdenoise.cg:28-46 | distances from grey are multiplied by the contrasts, and the result made legal |
| Shaders.MoveIsHalfway | src/yuvdenoise.cg:116-138 | a moved pixel is the mean of two neighbours whose mean place is half the vector away |
| Shaders.DifferenceCountsParts | src/yuvdenoise.cg:263-266 | all three parts count, each by its own distance: zero only where none differs, and additive part by part |
| Shaders.VectorRangeStaysInside | src/yuvdenoise.cg:395-414 | just the vectors that lead outside are dropped, and their costs stay |
| MotionSearch.SadIsPartial | src/yuvdenoise.cg:244-272 | one accumulation step adds the next difference and penalty |
| MotionSearch.HalvingShrinks | src/yuvdenoise.cg:98-114 | halving a picture of n by n block sums makes one of 2n by 2n block sums |
| MotionSearch.CostIsLarge | src/yuvdenoise.cg:263-268 | an offset costs at least 256 times the square of its length |
| MotionSearch.CostIsPenaltyIff | src/yuvdenoise.cg:244-272 | it costs just that if and only if luma and both chroma parts agree at all 9 by 9 pixels under the block |
| MotionSearch.UpdateLeads | src/yuvdenoise.cg:357-377 | the shader keeps the cheapest offset so far, the later one of two equals |
| MotionSearch.SearchFinds | src/cg_interface.c:2047-2069 | after all offsets an unmarked block has the cheapest, last of equals, and a marked block is as it was |
| MotionSearch.DecimateAddIsMean | src/yuvdenoise.cg:78-95 | the mean of four means is the mean of the whole |
| MotionSearch.MarkedIffLowContrast | src/yuvdenoise.cg:414-436 | a block is marked if and only if no part of its 64 pixels differs by contrast_thresh or more |
| Gpu.Textures.constructor | src/cg_interface.c:591-652 | every handle names its own texture, of the size of its role |
| Gpu.Textures.Render | src/cg_interface.c:1038-1081 | a draw is never given up, its declared sources are other textures than the one it writes, it stays inside its target, and changes no other texture |
| Gpu.Textures.Swap | src/cg_interface.c:1361-1363 | two handles trade textures of the same size and all others stay |
| Gpu.Textures.Decimate | src/cg_interface.c:1124-1164 | at even sizes each output pixel is made of its own two by two |
| CoarseSearch.SumDifferences | src/cg_interface.c:1349-1369 | vector2TexID holds the offset and the sum of 64 differences and penalties at every pixel |
| CoarseSearch.FinishIsExact | src/cg_interface.c:1690-1698 | from whole blocks the halving loop comes to one exact texel for each block |
| CoarseSearch.UpdateVectors | src/cg_interface.c:1683-1741 | vectorTexID holds the better of the old vector and the exact block sum of the candidate |
| CoarseSearch.SearchQuarter | src/cg_interface.c:2047-2069 | the vector of every block leads among all offsets up to radius/4 |
| CoarseSearch.MarkLowContrastBlocks | src/cg_interface.c:1307-1346 | every block starts marked or not by the mean number of visible differences in it |
| CoarseSearch.MarkAndSearch | src/cg_interface.c:2461-2468 | low-contrast blocks end with (0, 0) and cost 0, all others with the cheapest offset, last of equals |
| FineSearch.RefineSums | src/cg_interface.c:1448-1469 | each pixel holds twice its vector and the offset, and the 64 differences at these places on top of what vector2TexID held before |
| FineSearch.SummedIsTried | src/yuvdenoise.cg:274-345 | 64 steps of either shader add up the differences of 8 by 8 pixels, and clear nothing |
| FineSearch.VectorIsReadAround | src/yuvdenoise.cg:289-294 | the vector of a block is read for the pixels up to half a block away from its first one |
| FineSearch.RefineOnce | src/cg_interface.c:2076-2079 | the three vector textures are what one round makes of them |
| FineSearch.RoundRefines | src/cg_interface.c:2076-2079 | in a round a block keeps its vector, or goes on to twice it and the offset just if that costs no more |
| FineSearch.Refine | src/cg_interface.c:2071-2146 | all offsets of a finer search are tried in scan order, each round going on from what the one before has left in the three textures |
| FineSearch.RoundsAreNoWorse | src/cg_interface.c:2071-2146 | over any number of rounds no block loses its vector, or gets one that costs more |
| FineSearch.SearchHalf | src/cg_interface.c:2071-2086 | 5 by 5 rounds on the half-size pictures |
| FineSearch.SearchFull | src/cg_interface.c:2088-2116 | 5 by 5 rounds on the full pictures, and then the better of the vector and (0, 0), so that no block costs more than the differences without motion |
| FineSearch.SearchHalfPixels | src/cg_interface.c:2118-2146 | 3 by 3 rounds of half pixels, the count of bad blocks, and the vectors that lead outside dropped |
| FineSearch.FineIsNoWorse | src/cg_interface.c:2071-2146 | after all finer searches no block has lost its vector, or has one that costs more |
| FineSearch.DropOutOfRange | src/cg_interface.c:2007-2045 | just the vectors that lead outside become (0, 0), costs stay, and blocks inside the picture have vectors that lead inside |
| FineSearch.MatchIsCompensatedIff | src/yuvdenoise.cg:116-138 | moving the average along a vector that matched exactly gives the frame if and only if the vector is zero |
| FineSearch.HalfpelIsMovedIff | src/yuvdenoise.cg:309-345 | the candidate of SAD_halfpel makes move_frame give what was compared if and only if the vector before it was zero |
| FineSearch.SquareIsExact | src/cg_interface.c:1947-2000 | if the smaller size is a power of two that divides the larger, the loop of vector_badcheck ends with one pixel for each square of that size |
| FineSearch.CountBadVectors | src/cg_interface.c:1903-2005 | where the halvings are exact the result is the number of bad blocks in the square at the origin |
| Denoise.Replace | src/cg_interface.c:2194-2197 | a stage draws into the spare texture and hands it over, all else stays |
| Denoise.AdjustContrast | src/cg_interface.c:939-981 | the reference is the contrast-adjusted input, also when nothing is to be adjusted |
| Denoise.AdjustedScales | src/yuvdenoise.cg:28-46 | luma and chroma have their distances from grey multiplied by their contrasts and are made legal, except that both contrasts 1 leave them alone |
| Denoise.DecimateFrames | src/cg_interface.c:2445-2448 | at sizes that are multiples of 8 the quarter-size pictures are every fourth pixel each way |
| Denoise.FindAndMove | src/cg_interface.c:2445-2492 | the vectors are what the finer searches make of the last cheapest ones of the coarse search, or of (0, 0) for low contrast; the bad blocks are counted, and the average is moved along the vectors |
| Denoise.Blend | src/cg_interface.c:2515-2525 | the picture before sharpening is within the bounds of the reference at every pixel, and it and the new average are what the three shaders make of frame, old average and old output |
| Denoise.MixedParts | src/yuvdenoise.cg:140-215 | the mean divides the way as 1 : delay, the new average is the mean corrected, and the output is the last one blended, part by part |
| Denoise.NearIsTight | src/yuvdenoise.cg:158-215 | no tighter bounds hold |
| Denoise.MostBadIsPart | src/cg_interface.c:2508-2511 | a new scene takes more than scene_thresh hundredths of the blocks to be bad |
| Denoise.StillPixelStays | src/yuvdenoise.cg:140-215 | a pixel that does not change keeps its value through averaging and both corrections |
| Denoise.Denoiser.Start | src/cg_interface.c:2424-2444 | the reference is the adjusted input; a new scene starts average and output from the input, and otherwise both stay |
| Denoise.Denoiser.LoadFrame | src/cg_interface.c:689-742 | the frame texture presents the three planes, between 32 rows of padding each that show what the luma texture held there, and the picture textures stay |
| Denoise.PlanesRoundTrip | src/yuv420p.cg:32-95 | loading and unloading a picture gives all three planes back, at even and odd sizes |
| Denoise.Denoiser.DenoiseFrame | src/cg_interface.c:2415-2540 | the new average is the old one (or the input, in a new scene) moved, averaged and corrected, the shown picture is its mix with the last output, sharpened, and a new scene is announced exactly for too many bad blocks where these are counted exactly |
| Denoise.Denoiser.UnloadFrame | src/cg_interface.c:745-839 | the planes are read from the picture in the frame texture, of two by two chroma values the last, and the picture textures stay |
| Denoise.Denoiser.Play | src/render_child.c:170-201 | for every clip of planes, each picture presents its frame, is a step from what the one before left, and is denoised within the bounds, and the planes handed out are read from it |
| Denoise.StepDenoises | src/cg_interface.c:2415-2540 | whatever came before, the picture before sharpening is within the bounds of the input |
| Clips.StillPixelMixes | src/yuvdenoise.cg:140-186 | where the vector is zero, the stored average of a frame is the corrected mean of the old one and the frame |
| Clips.QuietAnnouncesNothing | src/cg_interface.c:2508-2511 | a frame without a visible difference announces no new scene |
| Clips.FlatStep | src/cg_interface.c:2415-2540 | flat pictures stay flat wherever the vectors lead, and are mixed and made legal as single pixels are |
| Clips.FlatApproaches | src/yuvdenoise.cg:140-156 | after a change of flat pictures below the correction, the difference shrinks by delay/(delay + 1) with each frame, as long as no new scene is announced |
| Clips.PixelApproaches | src/yuvdenoise.cg:140-186 | so does that of any pixel of any pictures, as long as it shows one value and its vector is zero |
| Clips.FlatClip | src/cg_interface.c:2415-2540 | if the change is nowhere visible, none is announced, so that this holds for the whole clip |

## Left out

- OpenGL and Cg calls, framebuffer checks, shader compilation and dumps: only which texture is read, which is written and what is computed is kept.
- Rounding, 16-bit storage and its clamping to [0, 1]: shaders compute with exact reals.
- FineSearch.Refine: claims nothing where the size is not whole blocks of the factor, since the halving loop then mixes neighbouring blocks; FineSearch.SearchHalf, FineSearch.SearchHalfPixels and FineSearch.RefineOnce likewise.
- FineSearch.SearchFull: claims vectors and costs for widths and heights that are multiples of 8 only, and leaves the accumulators open after the last SAD.
- Denoise.FindAndMove: claims vectors for widths and heights that are multiples of 8 and a radius above -4 only.
- Denoise.DecimateFrames: claims which pixels are kept for sizes that are multiples of 8 only; at others the shader reads those that Gpu.Scaled names.
- FineSearch.CountBadVectors: claims the number only where every halving is exact; at other sizes the loop samples across pixels.
- Clips.FlatClip: is about pictures that are flat together with their padding, and about sizes for which blocks are whole and the bad blocks are counted exactly; Clips.FlatApproaches is about all sizes, and Clips.PixelApproaches about single pixels of any picture.
- Gpu.Textures.Render: the sources of a draw are declared beside its shader, and that the shader samples no others is not proved; with OpenGL they are the textures that are bound.
- Gpu.Textures.Decimate: leaves the picture open at odd sizes, where the sample points miss the texel centres.
- CoarseSearch.UpdateVectors: claims sums only when the sizes are whole blocks of a factor that is a power of two, which are the only ones for which the loop makes block sums.
- CoarseSearch.SearchQuarter: claims the vectors for even quarter sizes only, since otherwise the blocks of two by two are not whole.
- CoarseSearch.MarkLowContrastBlocks: claims the marks for widths and heights that are multiples of 8 only, since otherwise a halving is not exact.
- CoarseSearch.MarkAndSearch: claims the outcome for widths and heights that are multiples of 8, and for radius above -4, since smaller ones search nothing.
- Sampling outside a texture: move_frame and sharpen_frame read the pixel at the edge; for the searches a texture is any function of the coordinates, so clamping is one case of it.
- ffmpeg, PPM files and getFrame: the file is a number of frames that decode in order.
- videoFinished and the producer's steps are atomic: the unlocked read of tailIn at src/video_in.c:416 may meet the producer in between.
- The kernel queue loses no message, although messages are sent with IPC_NOWAIT, and the one static buffer of src/ipc_queue.c is not shared.
- Q_MSG_LOG, Q_MSG_VIDEO_READY and Q_MSG_DYING_GASP messages, and the console process.
- Timeouts, GlobalAbort, QueueKillAll, QueueDestroy, signal handlers, configuration parsing, FPS display, log formatting.
- Reading used[-1]: the program reads in front of the array while headIn is -1; the model takes that slot for free, as src/video_in.c:402-412 does if the word before the array is 0.
- QueueCreate(0) and calls with a NULL queue, which return at once; the signed shift in the rounding loop is modelled as the 64-bit value it becomes.
- BlockingQueue.QueueObject.Clear: freeing the items is not modelled, only that the table forgets them.
- Layout.SharedMem.InitVideoIn: the int cast of the number of frames is modelled, 32-bit overflow of offsets is not; the layout of a YUV420P picture is ffmpeg's.
- LinkedList.List.Remove: locks are not modelled; the caller holds them.
- src/ocldevice, src/test_decode.c, scripts and build files.
