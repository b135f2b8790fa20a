/** Bitwise and on unsigned numbers, and what masking with 2^i - 1 does. */
module BitMask {
  import opened QueueSizing
  import opened Slots

  function BitAnd(x: nat, y: nat): (r: nat)
    ensures r <= x && r <= y
  {
    if x == 0 || y == 0 then 0 else (if x % 2 == 1 && y % 2 == 1 then 1 else 0) + 2 * BitAnd(x / 2, y / 2)
  }

  predicate Bit(x: nat, k: nat) {
    if k == 0 then x % 2 == 1 else Bit(x / 2, k - 1)
  }

  lemma ZeroBits(k: nat)
    ensures !Bit(0, k)
  {
  }

  /** BitAnd works bit by bit. */
  lemma {:induction false} BitAndBit(x: nat, y: nat, k: nat)
    ensures Bit(BitAnd(x, y), k) <==> Bit(x, k) && Bit(y, k)
  {
    ZeroBits(k);
    if x != 0 && y != 0 {
      var r := BitAnd(x / 2, y / 2);
      assert BitAnd(x, y) / 2 == r;
      if k > 0 { BitAndBit(x / 2, y / 2, k - 1); }
    }
  }

  /** Below two laps, masking with 2^i - 1 takes away at most one lap of 2^i. */
  lemma {:induction false} MaskWraps(x: nat, i: nat)
    requires x < 2 * Pow2(i)
    ensures BitAnd(x, Pow2(i) - 1) == if x < Pow2(i) then x else x - Pow2(i)
  {
    if i > 0 {
      MaskWraps(x / 2, i - 1);
      assert (Pow2(i) - 1) / 2 == Pow2(i - 1) - 1;
    }
  }

  /** Masking with 2^i - 1 is the remainder by 2^i. */
  lemma {:induction false} MaskIsMod(x: nat, i: nat)
    ensures BitAnd(x, Pow2(i) - 1) == Slot(x, Pow2(i)) == x % Pow2(i)
    decreases i
  {
    SlotIsMod(x, Pow2(i));
    if i > 0 {
      MaskIsMod(x / 2, i - 1);
      MaskHalves(x, i);
      HalfSlot(x, Pow2(i - 1));
    }
  }

  lemma MaskHalves(x: nat, i: nat)
    requires i > 0
    ensures BitAnd(x, Pow2(i) - 1) == x % 2 + 2 * BitAnd(x / 2, Pow2(i - 1) - 1)
  {
    assert (Pow2(i) - 1) / 2 == Pow2(i - 1) - 1 && (Pow2(i) - 1) % 2 == 1;
  }

  lemma {:induction false} HalfSlot(x: nat, p: nat)
    requires p > 0
    ensures Slot(x, 2 * p) == 2 * Slot(x / 2, p) + x % 2
  {
    if x >= 2 * p {
      HalfSlot(x - 2 * p, p);
      assert (x - 2 * p) / 2 == x / 2 - p;
    }
  }

  /** The all-ones word keeps every bit of a mask. */
  lemma {:induction false} MaskOfOnes(j: nat, i: nat)
    requires i <= j
    ensures BitAnd(Pow2(j) - 1, Pow2(i) - 1) == Pow2(i) - 1
  {
    if i > 0 {
      MaskOfOnes(j - 1, i - 1);
      assert (Pow2(i) - 1) / 2 == Pow2(i - 1) - 1;
      assert (Pow2(j) - 1) / 2 == Pow2(j - 1) - 1;
    }
  }

  lemma AllOnes()
    ensures Pow2(32) - 1 == MAX_UINT32
  {
    Pow2Top();
  }
}
