/** How QueueCreate turns a requested length into the number of table slots (src/queue.c). */
module QueueSizing {

  const MAX_UINT32 := 0xFFFF_FFFF
  const TOP_BIT := 0x8000_0000

  function Pow2(i: nat): (p: nat)
    ensures p >= 1
    ensures i >= 1 ==> p % 2 == 0
  {
    if i == 0 then 1 else 2 * Pow2(i - 1)
  }

  lemma {:induction false} Pow2Grows(i: nat, j: nat)
    requires i <= j
    ensures Pow2(i) <= Pow2(j)
    ensures i < j ==> Pow2(i) < Pow2(j)
  {
    if i < j { Pow2Grows(i, j - 1); }
  }

  lemma Pow2Top()
    ensures Pow2(31) == TOP_BIT
  {
    assert Pow2(8) == 0x100;
    assert Pow2(16) == 0x1_0000;
    assert Pow2(24) == 0x100_0000;
  }

  /** `(uint64)(1 << i)`: the shift is done on a signed 32-bit int, so for i == 31 the sign
      is carried into the upper half of the 64-bit value. */
  function ShiftOne(i: nat): nat
    requires i < 32
  {
    if i == 31 then 0xFFFF_FFFF_8000_0000 else Pow2(i)
  }

  /** Where the rounding loop stops. */
  function Exponent(request: nat, i: nat): (k: nat)
    requires request <= MAX_UINT32 && i <= 31
    ensures i <= k <= 31
    ensures request <= ShiftOne(k)
    ensures forall j | i <= j < k :: ShiftOne(j) < request
    decreases 31 - i
  {
    if request > ShiftOne(i) then Exponent(request, i + 1) else i
  }

  function NumElements(request: nat): nat
    requires 0 < request <= MAX_UINT32
  {
    Pow2(Exponent(request, 0))
  }

  /** The table gets the least power of two that is no less than the request, and 2^31 slots
      when there is no such 32-bit number. */
  lemma NumElementsIsLeast(request: nat)
    requires 0 < request <= MAX_UINT32
    ensures request <= TOP_BIT ==> NumElements(request) >= request
    ensures request <= TOP_BIT ==> forall j | Pow2(j) >= request :: NumElements(request) <= Pow2(j)
    ensures request > TOP_BIT ==> NumElements(request) == TOP_BIT
    ensures NumElements(request) <= TOP_BIT
    ensures NumElements(request) == 1 <==> request == 1
  {
    var k := Exponent(request, 0);
    Pow2Top();
    Pow2Grows(k, 31);
    forall j ensures j < k ==> Pow2(j) < request && ShiftOne(j) < request {
      if j < k { Pow2Grows(j, 31); assert ShiftOne(j) < request; }
    }
    forall j | k <= j ensures Pow2(k) <= Pow2(j) {
      Pow2Grows(k, j);
    }
    assert 0 < k ==> Pow2(0) < request;
  }
}
