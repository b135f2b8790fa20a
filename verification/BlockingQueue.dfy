/** The bounded ring queue as src/queue.c has it: an object whose indices, flags and table are
    changed in place. A call that would wait on a condition variable returns `Blocked` here and
    changes nothing; module QueueWaiting deals with the waiting. */
module BlockingQueue {
  import opened QueueSizing
  import opened BitMask
  import opened QueueModel
  import QR = QueueRemove

  datatype Outcome = Done | Rejected | Blocked

  /** The rounding loop of QueueCreate. */
  method RoundUp(request: nat) returns (numElements: nat, ghost bits: nat)
    requires 0 < request <= MAX_UINT32
    ensures bits == Exponent(request, 0) && numElements == Pow2(bits)
    ensures numElements == NumElements(request)
  {
    var i := 0;
    while i < 32 && request > ShiftOne(i)
      invariant i <= 31
      invariant Exponent(request, i) == Exponent(request, 0)
    {
      assert i < 31;
      i := i + 1;
    }
    bits := i;
    numElements := Pow2(i);
  }

  class QueueObject<T> {
    ghost const bits: nat
    const numElements: nat
    const numMask: nat
    const itemTable: array<Option<T>>
    var head: nat
    var tail: nat
    var full: bool
    var empty: bool

    ghost function View(): Queue<T>
      reads this, itemTable
    {
      Queue(bits, head, tail, full, empty, itemTable[..])
    }

    /** The representation holds together; the flags need not be up to date yet. */
    ghost predicate Built()
      reads this, itemTable
    {
      Shaped(View()) && numElements == Pow2(bits) && numMask == numElements - 1
    }

    ghost predicate Ok()
      reads this, itemTable
    {
      Built() && Valid(View())
    }

    ghost function Items(): seq<Option<T>>
      requires Ok()
      reads this, itemTable
    {
      Contents(View())
    }

    constructor (request: nat)
      requires 0 < request <= MAX_UINT32
      ensures Ok() && fresh(itemTable) && Items() == []
      ensures numElements == NumElements(request) && View() == Create<T>(request)
    {
      var n, b := RoundUp(request);
      numElements, numMask, bits := n, n - 1, b;
      head, tail, full, empty := 0, 0, false, true;
      var table := new Option<T>[n](_ => None);
      itemTable := table;
      new;
      NumElementsIsLeast(request);
      CreateIsEmpty<T>(request);
      assert itemTable[..] == Create<T>(request).table;
    }

    /** Brings the flags up to date; true for each condition that is signalled. */
    method UpdateConditions() returns (notFull: bool, notEmpty: bool)
      requires Built()
      modifies this`full, this`empty
      ensures Built() && View() == ConditionUpdate(old(View()))
      ensures notFull == SignalsNotFull(old(View()), View()) && notEmpty == SignalsNotEmpty(old(View()), View())
    {
      var oldFull, oldEmpty := full, empty;
      if head == tail {
        empty, full := true, false;
      } else if BitAnd(head + 1, numMask) == tail {
        empty, full := false, true;
      } else {
        empty, full := false, false;
      }
      notFull := oldFull != full && !full;
      notEmpty := oldEmpty != empty && !empty;
    }

    method PutIn(item: Option<T>)
      requires Built()
      modifies this`head, itemTable
      ensures Built()
      ensures var q := old(View()); View() == q.(table := q.table[q.head := item], head := q.Mask(q.head + 1))
    {
      MaskNext(View(), head);
      itemTable[head] := item;
      head := BitAnd(head + 1, numMask);
    }

    method TakeOut() returns (item: Option<T>)
      requires Built()
      modifies this`tail, itemTable
      ensures Built() && item == old(itemTable[tail])
      ensures var q := old(View()); View() == q.(table := q.table[q.tail := None], tail := q.Mask(q.tail + 1))
    {
      MaskNext(View(), tail);
      item := itemTable[tail];
      itemTable[tail] := None;
      tail := BitAnd(tail + 1, numMask);
    }

    /** Appends an item, unless it is NULL or the queue is full. */
    method EnqueueItem(item: Option<T>) returns (outcome: Outcome, signal: bool)
      requires Ok()
      modifies this`head, this`full, this`empty, itemTable
      ensures Ok()
      ensures outcome == if item.None? then Rejected else if old(full) then Blocked else Done
      ensures outcome != Done ==> View() == old(View()) && !signal
      ensures outcome == Done ==> View() == QueueModel.EnqueueItem(old(View()), item.value)
      ensures outcome == Done && numElements >= 2 ==> Items() == old(Items()) + [item]
      ensures outcome == Done && numElements == 1 ==> Items() == []
      ensures signal <==> SignalsNotEmpty(old(View()), View())
    {
      if item.None? {
        return Rejected, false;
      }
      if full {
        return Blocked, false;
      }
      ghost var before := View();
      PutIn(item);
      var notFull;
      notFull, signal := UpdateConditions();
      outcome := Done;
      assert View() == QueueModel.EnqueueItem(before, item.value);
      if numElements >= 2 { EnqueueAppends(before, item.value); } else { OneSlotDrops(before, item.value); }
    }

    /** Takes the oldest item, unless the queue is empty. */
    method DequeueItem() returns (outcome: Outcome, item: Option<T>, signal: bool)
      requires Ok()
      modifies this`tail, this`full, this`empty, itemTable
      ensures Ok()
      ensures outcome == if old(empty) then Blocked else Done
      ensures outcome == Blocked ==> View() == old(View()) && item.None? && !signal
      ensures outcome == Done ==> View() == QueueModel.DequeueItem(old(View()))
      ensures outcome == Done ==> old(Items()) == [item] + Items() && item.Some?
      ensures signal <==> SignalsNotFull(old(View()), View())
    {
      if empty {
        return Blocked, None, false;
      }
      ghost var before := View();
      DequeueRemoves(before);
      item := TakeOut();
      var notEmpty;
      signal, notEmpty := UpdateConditions();
      outcome := Done;
      assert View() == QueueModel.DequeueItem(before);
    }

    method Clear(freeItems: bool)
      requires Ok()
      modifies this`head, this`tail, this`full, this`empty, itemTable
      ensures Ok() && Items() == [] && View() == QueueModel.Clear(old(View()), freeItems)
    {
      ghost var before := View();
      if freeItems {
        for i := 0 to numElements
          invariant forall k | 0 <= k < i :: itemTable[k] == None
          invariant head == before.head && tail == before.tail && full == before.full && empty == before.empty
        {
          if itemTable[i].Some? {
            itemTable[i] := None;
          }
        }
        assert itemTable[..] == seq(numElements, _ => None);
      }
      head, tail := 0, 0;
      ClearEmpties(before, freeItems);
      var notFull, notEmpty := UpdateConditions();
    }

    /** How many items are queued, worked out from the indices. */
    method Used() returns (used: nat)
      requires Ok()
      ensures used == |Items()|
    {
      FlagsAgree(View());
      used := BitAnd(head + numElements - tail, numMask);
    }

    // ----- Deleting from the middle -----

    /** memmove by one slot. */
    method MoveDown(at: nat, count: nat)
      requires at + count < itemTable.Length
      modifies itemTable
      ensures itemTable[..] == QR.MoveDown(old(itemTable[..]), at, count)
    {
      ghost var before := itemTable[..];
      for i := 0 to count
        invariant forall x | at <= x < at + i :: itemTable[x] == before[x + 1]
        invariant forall x | 0 <= x < at || at + i <= x < itemTable.Length :: itemTable[x] == before[x]
      {
        itemTable[at + i] := itemTable[at + i + 1];
      }
      assert forall x | 0 <= x < itemTable.Length :: itemTable[..][x] == QR.MoveDown(before, at, count)[x];
    }

    method CloseGap(index: nat)
      requires Built() && index < numElements && index != tail
      modifies itemTable
      ensures itemTable[..] == QR.CloseGap(old(itemTable[..]), tail, index)
    {
      if tail < index {
        if index != numElements - 1 {
          MoveDown(index, numElements - index - 1);
        }
        itemTable[numElements - 1] := itemTable[0];
        if tail != 0 {
          MoveDown(0, tail);
        }
      } else {
        MoveDown(index, tail - index);
      }
    }

    /** One slot back: 32-bit decrement, then the mask. */
    method StepBack(x: nat) returns (y: nat)
      requires Built() && x < numElements
      ensures y == QR.Back(View(), x)
    {
      y := if x == 0 then MAX_UINT32 else x - 1;
      y := BitAnd(y, numMask);
    }

    method DropHead()
      requires Built()
      modifies this`head, itemTable
      ensures Built()
      ensures var q := old(View()); View() == q.(table := q.table[q.head := None], head := q.Mask(q.head + 1))
    {
      MaskNext(View(), head);
      itemTable[head] := None;
      head := BitAnd(head + 1, numMask);
    }

    method DropTail()
      requires Built()
      modifies this`tail, itemTable
      ensures Built()
      ensures var q := old(View()); View() == q.(table := q.table[q.tail := None], tail := QR.Back(q, q.tail))
    {
      QR.MaskBack(View(), tail);
      itemTable[tail] := None;
      tail := StepBack(tail);
    }

    method RemoveItem(index: nat) returns (next: nat)
      requires Built() && index < numElements
      modifies this, itemTable
      ensures Built() && (View(), next) == QR.RemoveItem(old(View()), index)
    {
      ghost var before := View();
      var notFull, notEmpty;
      if index == head {
        DropHead();
        notFull, notEmpty := UpdateConditions();
        return index;
      }
      next := StepBack(index);
      if index != tail {
        CloseGap(index);
        assert View() == before.(table := QR.CloseGap(before.table, before.tail, index));
      }
      DropTail();
      notFull, notEmpty := UpdateConditions();
    }
  }
}
