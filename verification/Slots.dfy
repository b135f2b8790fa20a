/** Ring slots: the slot of the g-th item put on a ring, and the slot after a given one. */
module Slots {

  function Slot(g: nat, size: nat): (i: nat)
    requires size > 0
    ensures i < size
    ensures g < size ==> i == g
  {
    if g < size then g else Slot(g - size, size)
  }

  /** (i + 1) % size for a slot i, or for -1. */
  function NextSlot(i: int, size: nat): (k: int)
    requires size > 0 && -1 <= i < size
    ensures 0 <= k < size
  {
    if i + 1 == size then 0 else i + 1
  }

  lemma NextSlotIsMod(i: int, size: nat)
    requires size > 0 && -1 <= i < size
    ensures NextSlot(i, size) == (i + 1) % size
  {
  }

  lemma {:induction false} SlotIsMod(g: nat, size: nat)
    requires size > 0
    ensures Slot(g, size) == g % size
  {
    if g >= size {
      SlotIsMod(g - size, size);
      ModShift(g - size, size);
    }
  }

  lemma ModShift(a: nat, m: nat)
    requires m > 0
    ensures (a + m) % m == a % m
  {
    var q, q' := a / m, (a + m) / m;
    var d := q + 1 - q';
    assert d * m == (a + m) % m - a % m by {
      assert d * m == q * m + m - q' * m;
    }
    Magnitude(d, m);
  }

  lemma Magnitude(d: int, m: int)
    requires m > 0
    ensures d >= 1 ==> d * m >= m
    ensures d <= -1 ==> d * m <= -m
  {
  }

  lemma {:induction false} SlotNext(g: nat, size: nat)
    requires size > 0
    ensures Slot(g + 1, size) == NextSlot(Slot(g, size), size)
  {
    if g >= size { SlotNext(g - size, size); }
  }

  /** Items less than one lap apart lie in different slots. */
  lemma {:induction false} SlotInjective(a: nat, b: nat, size: nat)
    requires size > 0 && a < b + size && b < a + size
    ensures Slot(a, size) == Slot(b, size) ==> a == b
  {
    if a >= size && b >= size { SlotInjective(a - size, b - size, size); }
  }
}
