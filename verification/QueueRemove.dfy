/** QueueRemoveItem of src/queue.c: deletes one slot from the middle and closes the gap. Its moves
    take `head` for the first and `tail` for the last item, both included. */
module QueueRemove {
  import opened QueueSizing
  import opened Slots
  import opened BitMask
  import opened QueueModel

  /** memmove of `count` slots from at + 1 to at. */
  function MoveDown<T>(t: seq<T>, at: nat, count: nat): (r: seq<T>)
    requires at + count < |t|
    ensures |r| == |t|
  {
    seq(|t|, x requires 0 <= x < |t| => if at <= x < at + count then t[x + 1] else t[x])
  }

  /** A 32-bit unsigned index taken back by one and masked. */
  function Back<T>(q: Queue<T>, x: nat): nat {
    q.Mask(if x == 0 then MAX_UINT32 else x - 1)
  }

  function PreviousSlot(x: nat, size: nat): nat
    requires x < size
  {
    if x == 0 then size - 1 else x - 1
  }

  lemma MaskBack<T>(q: Queue<T>, x: nat)
    requires x < q.Size() && q.bits <= 31
    ensures Back(q, x) == PreviousSlot(x, q.Size())
  {
    if x == 0 {
      AllOnes();
      MaskOfOnes(32, q.bits);
    } else {
      MaskWraps(x - 1, q.bits);
    }
  }

  /** The moves that close the gap at `index`, which is neither head nor tail. */
  function CloseGap<T>(table: seq<T>, tail: nat, index: nat): (r: seq<T>)
    requires tail < |table| && index < |table| && index != tail
    ensures |r| == |table|
  {
    var last := |table| - 1;
    if tail < index then
      var t1 := if index != last then MoveDown(table, index, last - index) else table;
      var t2 := t1[last := t1[0]];
      if tail != 0 then MoveDown(t2, 0, tail) else t2
    else
      MoveDown(table, index, tail - index)
  }

  /** Also returns the index that the caller goes on from. */
  function RemoveItem<T>(q: Queue<T>, index: nat): (Queue<T>, nat)
    requires Shaped(q) && index < q.Size()
  {
    if index == q.head then
      (ConditionUpdate(q.(table := q.table[q.head := None], head := q.Mask(q.head + 1))), index)
    else if index == q.tail then
      (ConditionUpdate(q.(table := q.table[q.tail := None], tail := Back(q, q.tail))), Back(q, index))
    else
      (ConditionUpdate(q.(table := CloseGap(q.table, q.tail, index)[q.tail := None], tail := Back(q, q.tail))),
       Back(q, index))
  }

  /** Going round from `index`, x comes before `tail`. */
  predicate Between(x: nat, index: nat, tail: nat) {
    if index <= tail then index <= x < tail else x >= index || x < tail
  }

  /** Every slot from `index` up to the tail takes over the slot after it, in both cases. */
  lemma CloseGapShifts<T>(table: seq<T>, tail: nat, index: nat, x: nat)
    requires tail < |table| && index < |table| && index != tail && x < |table|
    ensures CloseGap(table, tail, index)[x] == if Between(x, index, tail) then table[NextSlot(x, |table|)] else table[x]
  {
    if tail < index { WrappedShifts(table, tail, index, x); }
  }

  lemma WrappedShifts<T>(table: seq<T>, tail: nat, index: nat, x: nat)
    requires tail < index < |table| && x < |table|
    ensures CloseGap(table, tail, index)[x] == if x >= index || x < tail then table[NextSlot(x, |table|)] else table[x]
  {
    var last := |table| - 1;
    var t1 := if index != last then MoveDown(table, index, last - index) else table;
    var t2 := t1[last := t1[0]];
    assert t2[x] == if index <= x < last then table[x + 1] else if x == last then table[0] else table[x];
    if tail != 0 && x < tail { assert t2[x + 1] == table[x + 1]; }
  }

  /** The items from head to tail, both included. */
  function Inclusive<T>(q: Queue<T>): seq<Option<T>>
    requires Shaped(q)
  {
    Window(q.table, q.head, Distance(q.head, q.tail, q.Size()) + 1)
  }

  lemma SlotsBetween(head: nat, size: nat, len: nat, p: nat, k: nat)
    requires head < size && 1 <= len <= size && p < len && k < len
    ensures Between(Slot(head + k, size), Slot(head + p, size), Slot(head + (len - 1), size)) <==> p <= k < len - 1
  {
  }

  lemma NextOf(head: nat, k: nat, size: nat)
    requires head < size
    ensures NextSlot(Slot(head + k, size), size) == Slot(head + (k + 1), size)
  {
    SlotNext(head + k, size);
  }

  lemma GapCloses<T>(table: seq<Option<T>>, head: nat, tail: nat, len: nat, p: nat)
    requires head < |table| && 1 <= p < len - 1 && len <= |table| && tail == Slot(head + (len - 1), |table|)
    ensures var index := Slot(head + p, |table|);
      index != tail &&
      Window(CloseGap(table, tail, index)[tail := None], head, len - 1)
        == Window(table, head, len)[..p] + Window(table, head, len)[p + 1..]
  {
    var size, index := |table|, Slot(head + p, |table|);
    SlotInjective(head + p, head + (len - 1), size);
    var t := CloseGap(table, tail, index)[tail := None];
    forall k: nat | k < len - 1 ensures t[Slot(head + k, size)] == table[Slot(head + Skip(p, k), size)] {
      GapClosesAt(table, head, len, p, k);
    }
    WindowSkips(table, t, head, len, p);
  }

  /** Where item k comes from when item p is left out. */
  function Skip(p: nat, k: nat): nat {
    if k < p then k else k + 1
  }

  lemma WindowSkips<T>(table: seq<Option<T>>, t: seq<Option<T>>, head: nat, len: nat, p: nat)
    requires head < |table| == |t| && p < len
    requires forall k: nat | k < len - 1 :: t[Slot(head + k, |t|)] == table[Slot(head + Skip(p, k), |t|)]
    ensures Window(t, head, len - 1) == Window(table, head, len)[..p] + Window(table, head, len)[p + 1..]
  {
    var w, v := Window(table, head, len), Window(t, head, len - 1);
    var w' := w[..p] + w[p + 1..];
    forall k: nat | k < len - 1 ensures v[k] == w'[k] {
      WindowAt(t, head, len - 1, k);
      WindowAt(table, head, len, Skip(p, k));
    }
  }

  lemma GapClosesAt<T>(table: seq<Option<T>>, head: nat, len: nat, p: nat, k: nat)
    requires head < |table| && 1 <= p < len - 1 && len <= |table| && k < len - 1
    ensures var tail, index := Slot(head + (len - 1), |table|), Slot(head + p, |table|);
      index != tail &&
      CloseGap(table, tail, index)[tail := None][Slot(head + k, |table|)]
        == table[Slot(head + Skip(p, k), |table|)]
  {
    var size := |table|;
    SlotInjective(head + p, head + (len - 1), size);
    SlotInjective(head + k, head + (len - 1), size);
    SlotsBetween(head, size, len, p, k);
    NextOf(head, k, size);
    CloseGapShifts(table, Slot(head + (len - 1), size), Slot(head + p, size), Slot(head + k, size));
  }

  lemma RemoveAtHead<T>(q: Queue<T>)
    requires Shaped(q)
    ensures var r := RemoveItem(q, q.head).0;
      && Shaped(r) && r.head == NextSlot(q.head, q.Size()) && r.tail == q.tail && r.bits == q.bits
      && Window(r.table, r.head, |Inclusive(q)| - 1) == Inclusive(q)[1..]
  {
    var N, len := q.Size(), |Inclusive(q)|;
    MaskNext(q, q.head);
    assert Slot(NextSlot(q.head, N) + (N - 1), N) == q.head;
    WindowKeeps(q.table, NextSlot(q.head, N), len - 1, q.head, N - 1, None);
  }

  lemma RemoveAtTail<T>(q: Queue<T>)
    requires Shaped(q) && q.head != q.tail
    ensures var r := RemoveItem(q, q.tail).0;
      && Shaped(r) && r.head == q.head && r.tail == PreviousSlot(q.tail, q.Size()) && r.bits == q.bits
      && Window(r.table, r.head, |Inclusive(q)| - 1) == Inclusive(q)[..|Inclusive(q)| - 1]
  {
    var len := |Inclusive(q)|;
    MaskBack(q, q.tail);
    WindowKeeps(q.table, q.head, len - 1, q.tail, len - 1, None);
    WindowFront(q.table, q.head, len);
  }

  lemma RemoveInside<T>(q: Queue<T>, p: nat)
    requires Shaped(q) && 1 <= p < |Inclusive(q)| - 1
    ensures var r := RemoveItem(q, Slot(q.head + p, q.Size())).0;
      && Shaped(r) && r.head == q.head && r.tail == PreviousSlot(q.tail, q.Size()) && r.bits == q.bits
      && Window(r.table, r.head, |Inclusive(q)| - 1) == Inclusive(q)[..p] + Inclusive(q)[p + 1..]
  {
    var N := q.Size();
    var index := Slot(q.head + p, N);
    SlotInjective(q.head, q.head + p, N);
    InsideWindow(q, p);
    RemoveAtInside(q, index);
  }

  lemma InsideWindow<T>(q: Queue<T>, p: nat)
    requires Shaped(q) && 1 <= p < |Inclusive(q)| - 1
    ensures var index := Slot(q.head + p, q.Size());
      index != q.tail &&
      Window(CloseGap(q.table, q.tail, index)[q.tail := None], q.head, |Inclusive(q)| - 1)
        == Inclusive(q)[..p] + Inclusive(q)[p + 1..]
  {
    GapCloses(q.table, q.head, q.tail, |Inclusive(q)|, p);
  }

  lemma RemoveAtInside<T>(q: Queue<T>, index: nat)
    requires Shaped(q) && index < q.Size() && index != q.head && index != q.tail
    ensures var r := RemoveItem(q, index).0;
      && Shaped(r) && r.head == q.head && r.tail == PreviousSlot(q.tail, q.Size()) && r.bits == q.bits
      && r.table == CloseGap(q.table, q.tail, index)[q.tail := None]
  {
    MaskBack(q, q.tail);
  }

  /** On its own window, head and tail included, QueueRemoveItem deletes the item at `index` and
      keeps the others in order. */
  lemma RemoveItemDeletes<T>(q: Queue<T>, p: nat)
    requires Shaped(q) && p < |Inclusive(q)|
    ensures var r := RemoveItem(q, Slot(q.head + p, q.Size())).0;
      && Shaped(r)
      && Window(r.table, r.head, |Inclusive(q)| - 1) == Inclusive(q)[..p] + Inclusive(q)[p + 1..]
      && (|Inclusive(q)| >= 2 ==> |Inclusive(r)| == |Inclusive(q)| - 1)
  {
    if p == 0 {
      RemoveAtHead(q);
    } else if p == |Inclusive(q)| - 1 {
      RemoveAtTail(q);
    } else {
      RemoveInside(q, p);
    }
  }

  /** The caller goes on from the slot before, or from the same slot if that was the head. */
  lemma RemoveItemReturns<T>(q: Queue<T>, index: nat)
    requires Shaped(q) && index < q.Size()
    ensures RemoveItem(q, index).1 == if index == q.head then index else PreviousSlot(index, q.Size())
  {
    MaskBack(q, index);
  }

  lemma WindowFront<T>(table: seq<Option<T>>, from: nat, n: nat)
    requires from < |table| && n > 0
    ensures Window(table, from, n - 1) == Window(table, from, n)[..n - 1]
  {
    forall k: nat | k < n - 1 ensures Window(table, from, n - 1)[k] == Window(table, from, n)[k] {
      WindowAt(table, from, n - 1, k);
      WindowAt(table, from, n, k);
    }
  }

  /** The items of a queue that is filled and emptied by QueueEnqueueItem and QueueDequeueItem lie
      from tail up to head instead. Removing one of them there makes the queue longer by one, so
      it deletes the item just when the table has two slots. */
  lemma RemoveItemOnFifo<T>(q: Queue<T>, p: nat)
    requires Valid(q) && p < |Contents(q)|
    ensures var r := RemoveItem(q, Slot(q.tail + p, q.Size())).0;
      Shaped(r) && (Contents(r) == Contents(q)[..p] + Contents(q)[p + 1..] <==> q.Size() == 2)
  {
    var N, n := q.Size(), |Contents(q)|;
    SlotInjective(q.tail + p, q.tail + n, N);
    RemoveMovesTail(q, Slot(q.tail + p, N));
    DistanceBack(q.tail, q.head, N);
    var r := RemoveItem(q, Slot(q.tail + p, N)).0;
    assert |Contents(r)| == if n + 1 == N then 0 else n + 1;
    assert |Contents(q)[..p] + Contents(q)[p + 1..]| == n - 1;
  }

  lemma RemoveMovesTail<T>(q: Queue<T>, index: nat)
    requires Shaped(q) && index < q.Size() && index != q.head
    ensures var r := RemoveItem(q, index).0;
      Shaped(r) && r.head == q.head && r.tail == PreviousSlot(q.tail, q.Size()) && r.bits == q.bits
  {
    MaskBack(q, q.tail);
  }

  lemma DistanceBack(from: nat, to: nat, size: nat)
    requires from < size && to < size
    ensures Distance(PreviousSlot(from, size), to, size) ==
      if Distance(from, to, size) + 1 == size then 0 else Distance(from, to, size) + 1
  {
  }
}
