/** What the pipeline does with the sizes the program gives its queue and its ring. Both follow the
    number of configured cards; how many of them are capable is known only once they report. */
module ShippedSizes {
  import opened Layout
  import opened Pipeline
  import opened PipelineDeadlock
  import opened PipelineRing
  import opened PipelineRuns
  import opened PipelineSafety
  import opened QueueSizing

  /** The segment holds enough frames to start, and the queue length fits its type. */
  predicate Starts(shmmax: nat, frameSize: nat, numChildren: nat) {
    && frameSize > 0 && SizeRing(shmmax, frameSize, numChildren).Sized?
    && 0 < numChildren && 2 * numChildren <= MAX_UINT32
  }

  /** The pipeline for these cards and a segment of this size. */
  function Shipped(shmmax: nat, frameSize: nat, capable: seq<bool>, length: nat): Config
    requires Starts(shmmax, frameSize, |capable|)
  {
    Config(capable, NumElements(2 * |capable|) - 1, SizeRing(shmmax, frameSize, |capable|).frameCountIn, length)
  }

  lemma {:induction false} CardsAtMost(capable: seq<bool>)
    ensures |Cards(capable)| <= |capable|
    ensures (forall i | 0 <= i < |capable| :: capable[i]) ==> |Cards(capable)| == |capable|
  {
    if |capable| > 0 { CardsAtMost(capable[..|capable| - 1]); }
  }

  /** The tables of ChildMsgQ. */
  lemma QueueLengths(n: nat)
    requires 0 < n && 2 * n <= MAX_UINT32
    ensures n == 1 ==> NumElements(2 * n) == 2
    ensures n == 2 ==> NumElements(2 * n) == 4
    ensures n == 3 || n == 4 ==> NumElements(2 * n) == 8
    ensures n >= 5 ==> NumElements(2 * n) >= 16
    ensures 2 * n <= TOP_BIT ==> NumElements(2 * n) >= 2 * n
  {
    NumElementsIsLeast(2 * n);
    if n <= 4 {
      Rounded(2 * n, if n == 1 then 1 else if n == 2 then 2 else 3);
    } else {
      AtLeast(2 * n);
    }
  }

  lemma Rounded(request: nat, k: nat)
    requires 1 <= k <= 3 && Pow2(k - 1) < request <= Pow2(k)
    ensures NumElements(request) == Pow2(k) && Pow2(1) == 2 && Pow2(2) == 4 && Pow2(3) == 8
  {
    NumElementsIsLeast(request);
    Pow2Between(Exponent(request, 0), k);
  }

  lemma Pow2Between(e: nat, k: nat)
    requires 1 <= k && Pow2(k - 1) < Pow2(e) <= Pow2(k)
    ensures e == k
  {
    if e < k {
      Pow2Grows(e, k - 1);
    } else if k < e {
      Pow2Grows(k, e);
    }
  }

  lemma AtLeast(request: nat)
    requires 8 < request <= MAX_UINT32
    ensures NumElements(request) >= 16
  {
    NumElementsIsLeast(request);
    EightOrSixteen(Exponent(request, 0));
  }

  lemma EightOrSixteen(e: nat)
    ensures Pow2(e) <= 8 || Pow2(e) >= 16
  {
    assert Pow2(3) == 8 && Pow2(4) == 16;
    if e <= 3 {
      Pow2Grows(e, 3);
    } else {
      Pow2Grows(4, e);
    }
  }

  lemma RingLengths(shmmax: nat, frameSize: nat, n: nat)
    requires frameSize > 0 && SizeRing(shmmax, frameSize, n).Sized?
    ensures var F := SizeRing(shmmax, frameSize, n).frameCountIn;
      5 <= F <= 0x4000_0000 && F <= (if n < 4 then 10 else n + 6)
  {
    SlotsFit(shmmax, frameSize, n);
  }

  /** With m capable cards, a queue table of q slots and a ring of F, a file longer than the ring is
      kept intact on all runs, and written right, just when m + q stays below F (with one card or
      none, does not go beyond it). If no card is capable, nothing is written. */
  lemma ShippedIsIntactIff(shmmax: nat, frameSize: nat, capable: seq<bool>, length: nat)
    requires Starts(shmmax, frameSize, |capable|)
    ensures var c := Shipped(shmmax, frameSize, capable, length);
      var m, q, F := |Cards(capable)|, NumElements(2 * |capable|), c.ringSize;
      var fits := length <= F || m + q < F || (m <= 1 && m + q <= F);
      && c.Valid()
      && ((forall s | Reachable(c, s) :: Intact(s)) <==> fits)
      && ((forall s | Reachable(c, s) :: OutputsRight(s)) <==> fits || m == 0)
  {
    var c := Shipped(shmmax, frameSize, capable, length);
    RingLengths(shmmax, frameSize, |capable|);
    NumElementsIsLeast(2 * |capable|);
    IntactIffSafe(c);
    OutputsRightIff(c);
  }

  /** Server and producer can come to wait for each other just when two cards are capable and the
      file is a lap less one frame, or one is, the queue table is no shorter than the ring, and the
      file is two laps less one frame. */
  lemma ShippedDeadlocksIff(shmmax: nat, frameSize: nat, capable: seq<bool>, length: nat)
    requires Starts(shmmax, frameSize, |capable|)
    ensures var c := Shipped(shmmax, frameSize, capable, length);
      var m, q, F := |Cards(capable)|, NumElements(2 * |capable|), c.ringSize;
      && c.Valid()
      && ((exists s :: Reachable(c, s) && Shaped(c, s) && Deadlocked(s)) <==>
          (m >= 2 && length >= F - 1) || (m == 1 && F <= q && length >= 2 * F - 1))
  {
    var c := Shipped(shmmax, frameSize, capable, length);
    RingLengths(shmmax, frameSize, |capable|);
    NumElementsIsLeast(2 * |capable|);
    DeadlockIff(c);
  }

  /** If all cards are capable: safe for any file with one card, or two cards and seven slots. */
  lemma AllCapableIsIntactIff(shmmax: nat, frameSize: nat, capable: seq<bool>, length: nat)
    requires Starts(shmmax, frameSize, |capable|) && forall i | 0 <= i < |capable| :: capable[i]
    ensures var c, n := Shipped(shmmax, frameSize, capable, length), |capable|;
      c.Valid() &&
      ((forall s | Reachable(c, s) :: OutputsRight(s)) <==>
       length <= c.ringSize || n == 1 || (n == 2 && c.ringSize >= 7))
  {
    CardsAtMost(capable);
    QueueLengths(|capable|);
    RingLengths(shmmax, frameSize, |capable|);
    ShippedIsIntactIff(shmmax, frameSize, capable, length);
  }

  /** The segment is large enough for all the slots that are wanted. */
  predicate Roomy(shmmax: nat, frameSize: nat, n: nat)
    requires frameSize > 0 && SizeRing(shmmax, frameSize, n).Sized?
  {
    SizeRing(shmmax, frameSize, n).frameCountIn == if n < 4 then 10 else n + 6
  }

  /** In a segment that is large enough: right for any file with up to two configured cards, or with
      up to four of which one is capable. A lone capable card can wait for ever only where five or
      more cards are configured. */
  lemma RoomyIsIntactIff(shmmax: nat, frameSize: nat, capable: seq<bool>, length: nat)
    requires Starts(shmmax, frameSize, |capable|) && Roomy(shmmax, frameSize, |capable|)
    ensures var c, n, m := Shipped(shmmax, frameSize, capable, length), |capable|, |Cards(capable)|;
      && c.Valid()
      && ((forall s | Reachable(c, s) :: OutputsRight(s)) <==>
          length <= c.ringSize || n <= 2 || (n <= 4 && m <= 1) || m == 0)
      && ((exists s :: Reachable(c, s) && Shaped(c, s) && Deadlocked(s)) <==>
          (m >= 2 && length >= c.ringSize - 1) || (m == 1 && n >= 5 && length >= 2 * c.ringSize - 1))
  {
    CardsAtMost(capable);
    QueueLengths(|capable|);
    RingLengths(shmmax, frameSize, |capable|);
    ShippedIsIntactIff(shmmax, frameSize, capable, length);
    ShippedDeadlocksIff(shmmax, frameSize, capable, length);
  }
}
