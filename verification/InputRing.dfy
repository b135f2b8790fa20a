/** The ring of shared-memory input slots: `headIn`, `tailIn` and `used[]` of src/video_in.c. */
module InputRing {
  import opened Slots

  /** `headIn` is -1 until the first frame comes back; -1 stands for a slot that is never in use. */
  datatype Ring = Ring(headIn: int, tailIn: int, used: seq<int>) {
    predicate Valid() {
      -1 <= headIn < |used| && 0 <= tailIn < |used|
    }
  }

  function UsedAt(used: seq<int>, i: int): int
    requires -1 <= i < |used|
  {
    if i == -1 then 0 else used[i]
  }

  /** The producer may not decode while the slot after `tailIn` is `headIn`. */
  predicate Blocked(r: Ring)
    requires r.Valid()
  {
    NextSlot(r.tailIn, |r.used|) == r.headIn
  }

  /** Where the reclaim scan comes to rest, starting at slot i with so many steps left. */
  function Scan(used: seq<int>, i: int, steps: nat): (k: int)
    requires |used| > 0 && -1 <= i < |used|
    ensures -1 <= k < |used|
    ensures steps > 0 ==> k >= 0
    decreases steps
  {
    if steps == 0 || UsedAt(used, i) != 0 then i else Scan(used, NextSlot(i, |used|), steps - 1)
  }

  function Decrement(used: seq<int>, i: int): (u: seq<int>)
    ensures |u| == |used|
  {
    if 0 <= i < |used| then used[i := used[i] - 1] else used
  }

  /** What videoFinished leaves behind. */
  function VideoFinished(r: Ring, currIndex: int): (r': Ring)
    requires r.Valid()
    ensures r'.Valid() && r'.tailIn == r.tailIn && |r'.used| == |r.used|
  {
    var u := Decrement(r.used, currIndex);
    if UsedAt(u, r.headIn) != 0 then r.(used := u)
    else
      var i := Scan(u, r.headIn, |u|);
      Ring(if UsedAt(u, i) == 0 then r.tailIn else i, r.tailIn, u)
  }

  /** One slot is given back, and no other use count changes. */
  lemma UsedAfter(r: Ring, index: int)
    requires r.Valid()
    ensures VideoFinished(r, index).used == Decrement(r.used, index)
  {
  }

  /** headIn ends on a slot that counts as used, or on the tail. */
  lemma HeadAfter(r: Ring, index: int)
    requires r.Valid()
    ensures var r' := VideoFinished(r, index); r'.headIn == r.tailIn || UsedAt(r'.used, r'.headIn) != 0
  {
  }

  /** The scan skips free slots only, and stops at the first used one if it has steps enough. */
  lemma {:induction false} ScanStops(used: seq<int>, base: nat, steps: nat) returns (j: nat)
    requires |used| > 0
    ensures j <= steps
    ensures Scan(used, Slot(base, |used|), steps) == Slot(base + j, |used|)
    ensures forall g | base <= g < base + j :: used[Slot(g, |used|)] == 0
    ensures used[Slot(base + j, |used|)] != 0 || j == steps
    decreases steps
  {
    if steps == 0 || used[Slot(base, |used|)] != 0 {
      j := 0;
    } else {
      SlotNext(base, |used|);
      var k := ScanStops(used, base + 1, steps - 1);
      j := k + 1;
    }
  }

  /** A used slot belongs to some frame g of the lap that starts at `base`, and g <= adv. */
  ghost predicate Lap(used: seq<int>, base: nat, adv: nat) {
    forall x | 0 <= x < |used| && used[x] != 0 ::
      exists g: nat :: base <= g <= adv && g < base + |used| && Slot(g, |used|) == x
  }

  /** Reclaiming moves the head forward over free slots only, onto the tail if no slot is used
      and else onto a used slot. Before the first completion the lap starts at slot 0. */
  lemma ReclaimKeepsLap(r: Ring, currIndex: int, base: nat, adv: nat) returns (base': nat)
    requires r.Valid()
    requires if r.headIn == -1 then base == 0 else r.headIn == Slot(base, |r.used|)
    requires r.tailIn == Slot(adv, |r.used|) && base <= adv
    requires Lap(Decrement(r.used, currIndex), base, adv)
    ensures base <= base' <= adv
    ensures VideoFinished(r, currIndex).headIn == Slot(base', |r.used|)
    ensures forall g | base <= g < base' && g < base + |r.used| :: Decrement(r.used, currIndex)[Slot(g, |r.used|)] == 0
    ensures base' == adv || Decrement(r.used, currIndex)[Slot(base', |r.used|)] != 0
    ensures (forall x | 0 <= x < |r.used| :: Decrement(r.used, currIndex)[x] == 0) ==> base' == adv
  {
    var u := Decrement(r.used, currIndex);
    var F := |u|;
    if UsedAt(u, r.headIn) != 0 {
      base' := base;
    } else {
      var steps := if r.headIn == -1 then F - 1 else F;
      assert Scan(u, r.headIn, F) == Scan(u, Slot(base, F), steps);
      var j := ScanStops(u, base, steps);
      var i := Slot(base + j, F);
      if u[i] == 0 {
        base' := adv;
        forall g | base <= g < base + F ensures u[Slot(g, F)] == 0 {
          assert g < base + j || g == base + j;
        }
      } else {
        var g: nat :| base <= g <= adv && g < base + F && Slot(g, F) == i;
        SlotInjective(g, base + j, F);
        base' := base + j;
      }
    }
  }
}
