/** The bounded ring queue of src/queue.c as a value: what each operation makes of it, and that it
    is a bounded first-in-first-out sequence. */
module QueueModel {
  import opened QueueSizing
  import opened Slots
  import opened BitMask

  datatype Option<T> = None | Some(value: T)

  /** `None` in the table is the NULL pointer. The table has 2^bits slots. */
  datatype Queue<T> = Queue(bits: nat, head: nat, tail: nat, full: bool, empty: bool, table: seq<Option<T>>) {
    function Size(): nat {
      Pow2(bits)
    }

    function Mask(x: nat): nat {
      BitAnd(x, Pow2(bits) - 1)
    }
  }

  predicate Shaped<T>(q: Queue<T>) {
    q.bits <= 31 && |q.table| == q.Size() && q.head < q.Size() && q.tail < q.Size()
  }

  /** QueueConditionUpdate. */
  function ConditionUpdate<T>(q: Queue<T>): Queue<T> {
    if q.head == q.tail then q.(empty := true, full := false)
    else if q.Mask(q.head + 1) == q.tail then q.(empty := false, full := true)
    else q.(empty := false, full := false)
  }

  /** QueueConditionUpdate wakes a waiter only when a flag goes from set to clear. */
  predicate SignalsNotFull<T>(before: Queue<T>, after: Queue<T>) {
    before.full && !after.full
  }

  predicate SignalsNotEmpty<T>(before: Queue<T>, after: Queue<T>) {
    before.empty && !after.empty
  }

  function EnqueueItem<T>(q: Queue<T>, item: T): Queue<T>
    requires Shaped(q)
  {
    ConditionUpdate(q.(table := q.table[q.head := Some(item)], head := q.Mask(q.head + 1)))
  }

  function DequeueItem<T>(q: Queue<T>): Queue<T>
    requires Shaped(q)
  {
    ConditionUpdate(q.(table := q.table[q.tail := None], tail := q.Mask(q.tail + 1)))
  }

  function Clear<T>(q: Queue<T>, freeItems: bool): Queue<T> {
    ConditionUpdate(q.(head := 0, tail := 0, table := if freeItems then seq(|q.table|, _ => None) else q.table))
  }

  function QueueUsed<T>(q: Queue<T>): nat
    requires Shaped(q)
  {
    q.Mask(q.head + q.Size() - q.tail)
  }

  /** `n` slots from slot `from` on, going round. */
  function Window<T>(table: seq<Option<T>>, from: nat, n: nat): (w: seq<Option<T>>)
    requires from < |table|
    ensures |w| == n
    decreases n
  {
    if n == 0 then [] else [table[from]] + Window(table, NextSlot(from, |table|), n - 1)
  }

  lemma {:induction false} WindowAt<T>(table: seq<Option<T>>, from: nat, n: nat, k: nat)
    requires from < |table| && k < n
    ensures Window(table, from, n)[k] == table[Slot(from + k, |table|)]
    decreases n
  {
    if k > 0 {
      WindowAt(table, NextSlot(from, |table|), n - 1, k - 1);
      if from + 1 == |table| { assert Slot(from + k, |table|) == Slot(k - 1, |table|); }
    }
  }

  /** Moving an index on by one and masking it. */
  lemma MaskNext<T>(q: Queue<T>, i: nat)
    requires i < q.Size()
    ensures q.Mask(i + 1) == NextSlot(i, q.Size())
  {
    MaskWraps(i + 1, q.bits);
  }

  /** How many steps lead from slot `from` to slot `to`. */
  function Distance(from: nat, to: nat, size: nat): (d: nat)
    requires from < size && to < size
    ensures d < size && Slot(from + d, size) == to
  {
    if from <= to then to - from else to + size - from
  }

  function Contents<T>(q: Queue<T>): seq<Option<T>>
    requires Shaped(q)
  {
    Window(q.table, q.tail, Distance(q.tail, q.head, q.Size()))
  }

  predicate Valid<T>(q: Queue<T>) {
    && Shaped(q)
    && (q.empty <==> q.head == q.tail)
    && (q.full <==> q.head != q.tail && NextSlot(q.head, q.Size()) == q.tail)
    && forall k | 0 <= k < |Contents(q)| :: Contents(q)[k].Some?
  }

  function Create<T>(request: nat): Queue<T>
    requires 0 < request <= MAX_UINT32
  {
    var bits := Exponent(request, 0);
    Queue(bits, 0, 0, false, true, seq(Pow2(bits), _ => None))
  }

  lemma CreateIsEmpty<T>(request: nat)
    requires 0 < request <= MAX_UINT32
    ensures Valid(Create<T>(request)) && Contents(Create<T>(request)) == []
    ensures Create<T>(request).Size() == NumElements(request)
  {
  }

  /** The cached flags and QueueUsed agree with the number of items held, and the sum that
      QueueUsed masks fits in 32 bits. */
  lemma FlagsAgree<T>(q: Queue<T>)
    requires Valid(q)
    ensures q.empty <==> |Contents(q)| == 0
    ensures q.full <==> |Contents(q)| == q.Size() - 1 && q.Size() >= 2
    ensures |Contents(q)| <= q.Size() - 1
    ensures QueueUsed(q) == |Contents(q)|
    ensures q.head + q.Size() - q.tail <= MAX_UINT32 && q.head + 1 <= MAX_UINT32 && q.tail + 1 <= MAX_UINT32
  {
    MaskWraps(q.head + q.Size() - q.tail, q.bits);
    Pow2Top();
    Pow2Grows(q.bits, 31);
  }

  lemma UpdateIsValid<T>(q: Queue<T>)
    requires Shaped(q) && forall k | 0 <= k < |Contents(q)| :: Contents(q)[k].Some?
    ensures Valid(ConditionUpdate(q)) && Contents(ConditionUpdate(q)) == Contents(q)
  {
    MaskNext(q, q.head);
    assert Contents(ConditionUpdate(q)) == Contents(q);
  }

  /** Writing the slot behind a window that is not the whole table makes it longer by one. */
  lemma WindowGrows<T>(table: seq<Option<T>>, from: nat, n: nat, at: nat, item: Option<T>)
    requires from < |table| && n < |table| && at == Slot(from + n, |table|)
    ensures Window(table[at := item], from, n + 1) == Window(table, from, n) + [item]
  {
    var w := Window(table[at := item], from, n + 1);
    forall k: nat | k < n + 1 ensures w[k] == (Window(table, from, n) + [item])[k] {
      WindowAt(table[at := item], from, n + 1, k);
      if k < n {
        WindowAt(table, from, n, k);
        SlotInjective(from + k, from + n, |table|);
      }
    }
  }

  /** A window that is not the whole table does not see a write to a slot outside of it. */
  lemma WindowKeeps<T>(table: seq<Option<T>>, from: nat, n: nat, at: nat, k: nat, item: Option<T>)
    requires from < |table| && n <= k < |table| && at == Slot(from + k, |table|)
    ensures Window(table[at := item], from, n) == Window(table, from, n)
  {
    forall i: nat | i < n ensures Window(table[at := item], from, n)[i] == Window(table, from, n)[i] {
      WindowAt(table[at := item], from, n, i);
      WindowAt(table, from, n, i);
      SlotInjective(from + i, from + k, |table|);
    }
  }

  lemma EnqueueAppends<T>(q: Queue<T>, item: T)
    requires Valid(q) && !q.full && q.Size() >= 2
    ensures Valid(EnqueueItem(q, item)) && Contents(EnqueueItem(q, item)) == Contents(q) + [Some(item)]
  {
    MaskNext(q, q.head);
    var r := q.(table := q.table[q.head := Some(item)], head := q.Mask(q.head + 1));
    OneMore(q, item, r);
    UpdateIsValid(r);
  }

  lemma OneMore<T>(q: Queue<T>, item: T, r: Queue<T>)
    requires Shaped(q) && Shaped(r) && r.bits == q.bits && NextSlot(q.head, q.Size()) != q.tail
    requires r.table == q.table[q.head := Some(item)] && r.head == NextSlot(q.head, q.Size()) && r.tail == q.tail
    ensures Contents(r) == Contents(q) + [Some(item)]
  {
    var n := Distance(q.tail, q.head, q.Size());
    WindowGrows(q.table, q.tail, n, q.head, Some(item));
    assert Distance(r.tail, r.head, r.Size()) == n + 1;
  }

  lemma DequeueRemoves<T>(q: Queue<T>)
    requires Valid(q) && !q.empty
    ensures Contents(q) != [] && Contents(q)[0] == q.table[q.tail]
    ensures Valid(DequeueItem(q)) && Contents(DequeueItem(q)) == Contents(q)[1..]
  {
    MaskNext(q, q.tail);
    var r := q.(table := q.table[q.tail := None], tail := q.Mask(q.tail + 1));
    OneLess(q, r);
    assert forall k | 0 <= k < |Contents(r)| :: Contents(r)[k] == Contents(q)[k + 1];
    UpdateIsValid(r);
  }

  lemma OneLess<T>(q: Queue<T>, r: Queue<T>)
    requires Shaped(q) && Shaped(r) && r.bits == q.bits && q.head != q.tail
    requires r.table == q.table[q.tail := None] && r.tail == NextSlot(q.tail, q.Size()) && r.head == q.head
    ensures Contents(q) == [q.table[q.tail]] + Contents(r)
  {
    var N, n := q.Size(), Distance(q.tail, q.head, q.Size());
    assert Slot(r.tail + (N - 1), N) == q.tail;
    WindowKeeps(q.table, r.tail, n - 1, q.tail, N - 1, None);
    assert Distance(r.tail, r.head, N) == n - 1;
  }

  lemma ClearEmpties<T>(q: Queue<T>, freeItems: bool)
    requires Valid(q)
    ensures Valid(Clear(q, freeItems)) && Contents(Clear(q, freeItems)) == []
  {
  }

  /** A table of one slot never holds anything: an item that is accepted is lost. */
  lemma OneSlotDrops<T>(q: Queue<T>, item: T)
    requires Valid(q) && q.Size() == 1
    ensures !q.full && Valid(EnqueueItem(q, item)) && Contents(EnqueueItem(q, item)) == []
  {
    MaskWraps(q.head + 1, q.bits);
  }

  // ----- Any sequence of operations -----

  datatype Operation<T> = Enqueue(item: T) | Dequeue | Reset(freeItems: bool)

  /** What a caller sees; `Waits` for a call that would block, which changes nothing. */
  datatype Answer<T> = Accepted | Got(item: Option<T>) | Emptied | Waits

  function Perform<T>(q: Queue<T>, op: Operation<T>): (Queue<T>, Answer<T>)
    requires Shaped(q)
  {
    match op
    case Enqueue(item) => if q.full then (q, Waits) else (EnqueueItem(q, item), Accepted)
    case Dequeue => if q.empty then (q, Waits) else (DequeueItem(q), Got(q.table[q.tail]))
    case Reset(freeItems) => (Clear(q, freeItems), Emptied)
  }

  /** The same on a sequence that may hold `capacity` items. */
  function Specify<T>(s: seq<Option<T>>, capacity: nat, op: Operation<T>): (seq<Option<T>>, Answer<T>) {
    match op
    case Enqueue(item) => if |s| >= capacity then (s, Waits) else (s + [Some(item)], Accepted)
    case Dequeue => if s == [] then (s, Waits) else (s[1..], Got(s[0]))
    case Reset(_) => ([], Emptied)
  }

  lemma StepRefines<T>(q: Queue<T>, op: Operation<T>)
    requires Valid(q) && q.Size() >= 2
    ensures Valid(Perform(q, op).0) && Perform(q, op).0.Size() == q.Size()
    ensures (Contents(Perform(q, op).0), Perform(q, op).1) == Specify(Contents(q), q.Size() - 1, op)
  {
    FlagsAgree(q);
    match op
    case Enqueue(item) => if !q.full { EnqueueAppends(q, item); }
    case Dequeue => if !q.empty { DequeueRemoves(q); }
    case Reset(freeItems) => ClearEmpties(q, freeItems);
  }

  function Answers<T>(q: Queue<T>, ops: seq<Operation<T>>): seq<Answer<T>>
    requires Valid(q) && q.Size() >= 2
    decreases |ops|
  {
    if ops == [] then []
    else
      StepRefines(q, ops[0]);
      [Perform(q, ops[0]).1] + Answers(Perform(q, ops[0]).0, ops[1..])
  }

  function SpecifiedAnswers<T>(s: seq<Option<T>>, capacity: nat, ops: seq<Operation<T>>): seq<Answer<T>>
    decreases |ops|
  {
    if ops == [] then []
    else [Specify(s, capacity, ops[0]).1] + SpecifiedAnswers(Specify(s, capacity, ops[0]).0, capacity, ops[1..])
  }

  /** Whatever is done to a queue of two or more slots, its callers see a first-in-first-out
      sequence that holds one item less than the table has slots. */
  lemma {:induction false} QueueIsFifo<T>(q: Queue<T>, ops: seq<Operation<T>>)
    requires Valid(q) && q.Size() >= 2
    ensures Answers(q, ops) == SpecifiedAnswers(Contents(q), q.Size() - 1, ops)
    decreases |ops|
  {
    if ops != [] {
      StepRefines(q, ops[0]);
      QueueIsFifo(Perform(q, ops[0]).0, ops[1..]);
    }
  }
}
