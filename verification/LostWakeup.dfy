/** When a wakeup gets lost: a caller sleeps though it could go on, and nobody is left who would
    wake it. */
module LostWakeup {
  import opened QueueWaiting

  // ----- Several callers on a side -----

  /** Somebody sleeps who could go on, and nobody is awake who would bring that about. */
  predicate Lost(s: Monitor, side: Side) {
    SomeAsleep(Threads(s, side)) && !MustWait(s, side) && Trying !in s.producers && Trying !in s.consumers
  }

  /** With room for one item, every item wakes somebody, and so does every gap. */
  ghost predicate OneSlotInv(s: Monitor, side: Side) {
    SomeAsleep(Threads(s, side)) && !MustWait(s, side) ==> Trying in Threads(s, side)
  }

  lemma OneSlotStep(c: Setting, s: Monitor, a: Action, side: Side)
    requires Fits(c, s) && Enabled(c, s, a) && c.capacity == 1 && OneSlotInv(s, side)
    ensures OneSlotInv(Apply(c, s, a), side)
  {
    var t := Threads(s, side);
    if a.side == side {
      assert t[a.i := Trying][a.i] == Trying;
    } else if a.Enter? && a.wake < |t| {
      assert t[a.wake := Trying][a.wake] == Trying;
    }
  }

  lemma {:induction false} OneSlotPath(c: Setting, s: Monitor, acts: seq<Action>, t: Monitor, side: Side)
    requires Fits(c, s) && Path(c, s, acts, t) && c.capacity == 1 && OneSlotInv(s, side)
    ensures OneSlotInv(t, side)
    decreases |acts|
  {
    if acts != [] {
      OneSlotStep(c, s, acts[0], side);
      OneSlotPath(c, Apply(c, s, acts[0]), acts[1..], t, side);
    }
  }

  function Callers(c: Setting, side: Side): nat {
    if side == Producer then c.producers else c.consumers
  }

  lemma NeverLost(c: Setting, s: Monitor, side: Side)
    requires c.Valid() && Reachable(c, s) && (Callers(c, side) == 1 || c.capacity == 1)
    ensures !Lost(s, side)
  {
    var acts :| Path(c, Quiet(c, 0), acts, s);
    if Callers(c, side) == 1 {
      SleepersPath(c, Quiet(c, 0), acts, s, side);
    } else {
      OneSlotPath(c, Quiet(c, 0), acts, s, side);
    }
  }

  /** One call that goes through at once. */
  lemma Pass(c: Setting, count: nat, s: Monitor, side: Side) returns (t: Monitor)
    requires c.Valid() && count <= c.capacity && ReachableFrom(c, count, s) && Fits(c, s)
    requires Threads(s, side)[0] == Outside && !MustWait(s, side) && !Signals(c, s, side)
    ensures ReachableFrom(c, count, t) && Fits(c, t) && t == Moved(c, s, side)
  {
    var s1 := Do(c, count, s, Call(side, 0));
    t := Do(c, count, s1, Enter(side, 0, 0));
    assert Threads(t, side) == Threads(s, side);
  }

  lemma GoToSleep(c: Setting, count: nat, s: Monitor, side: Side, i: nat) returns (t: Monitor)
    requires c.Valid() && count <= c.capacity && ReachableFrom(c, count, s) && Fits(c, s)
    requires i < |Threads(s, side)| && Threads(s, side)[i] == Outside && MustWait(s, side)
    ensures ReachableFrom(c, count, t) && Fits(c, t) && t == WithThreads(s, side, Threads(s, side)[i := Asleep])
  {
    var s1 := Do(c, count, s, Call(side, i));
    t := Do(c, count, s1, Enter(side, i, 0));
    assert Threads(t, side) == Threads(s, side)[i := Asleep];
  }

  /** Nobody on the other side is in a call, and on this side nobody but 0 and 1. */
  predicate OnlyFirstTwo(s: Monitor, side: Side, first: Status, second: Status) {
    var t, o := Threads(s, side), Threads(s, Other(side));
    && |t| >= 2 && t[0] == first && t[1] == second && (forall k | 2 <= k < |t| :: t[k] == Outside)
    && (forall k | 0 <= k < |o| :: o[k] == Outside)
  }

  lemma BothAsleep(c: Setting, count: nat, side: Side) returns (t: Monitor)
    requires c.Valid() && c.capacity >= 2 && Callers(c, side) >= 2
    requires count == if side == Consumer then 0 else c.capacity
    ensures ReachableFrom(c, count, t) && Fits(c, t) && t.count == count && OnlyFirstTwo(t, side, Asleep, Asleep)
  {
    assert Path(c, Quiet(c, count), [], Quiet(c, count));
    var s1 := GoToSleep(c, count, Quiet(c, count), side, 0);
    t := GoToSleep(c, count, s1, side, 1);
  }

  /** The other side lets one in or out, and wakes caller 0. */
  lemma WakeFirst(c: Setting, count: nat, s: Monitor, side: Side) returns (t: Monitor)
    requires c.Valid() && count <= c.capacity && ReachableFrom(c, count, s) && Fits(c, s) && c.capacity >= 2
    requires s.count == (if side == Consumer then 0 else c.capacity) && OnlyFirstTwo(s, side, Asleep, Asleep)
    ensures ReachableFrom(c, count, t) && Fits(c, t) && OnlyFirstTwo(t, side, Trying, Asleep)
    ensures t.count == if side == Consumer then 1 else c.capacity - 1
  {
    var other := Other(side);
    t := PassWaking(c, count, s, other, 0);
    assert Threads(t, side) == Threads(s, side)[0 := Trying];
  }

  /** One call that goes through at once and wakes a sleeper of the other side. */
  lemma PassWaking(c: Setting, count: nat, s: Monitor, side: Side, wake: nat) returns (t: Monitor)
    requires c.Valid() && count <= c.capacity && ReachableFrom(c, count, s) && Fits(c, s)
    requires Threads(s, side)[0] == Outside && !MustWait(s, side) && (side == Consumer ==> s.count > 0)
    requires Signals(c, s, side)
    requires wake < |Threads(s, Other(side))| && Threads(s, Other(side))[wake] == Asleep
    ensures ReachableFrom(c, count, t) && Fits(c, t)
    ensures t == WithThreads(Moved(c, s, side), Other(side), Threads(s, Other(side))[wake := Trying])
  {
    var s1 := Do(c, count, s, Call(side, 0));
    assert Threads(s1, Other(side)) == Threads(s, Other(side)) && Threads(s1, side) == Threads(s, side)[0 := Trying];
    assert Signals(c, s1, side) && !MustWait(s1, side) && SomeAsleep(Threads(s1, Other(side)));
    t := Do(c, count, s1, Enter(side, 0, wake));
    assert Threads(s1, side)[0 := Outside] == Threads(s, side);
  }

  /** Two sleepers, two calls of the other side, one signal: the one who is woken goes through and
      leaves, and the other one sleeps on. */
  lemma LoseFrom(c: Setting, count: nat, side: Side) returns (t: Monitor)
    requires c.Valid() && c.capacity >= 2 && Callers(c, side) >= 2
    requires count == if side == Consumer then 0 else c.capacity
    ensures ReachableFrom(c, count, t) && Lost(t, side)
  {
    var s1 := BothAsleep(c, count, side);
    var s2 := WakeFirst(c, count, s1, side);
    var s3 := Pass(c, count, s2, Other(side));
    t := Leave(c, count, s3, side);
    FirstTwoLost(c, t, side);
  }

  lemma FirstTwoLost(c: Setting, t: Monitor, side: Side)
    requires Fits(c, t) && OnlyFirstTwo(t, side, Outside, Asleep) && !MustWait(t, side)
    ensures Lost(t, side)
  {
    var mine, others := Threads(t, side), Threads(t, Other(side));
    assert mine[1] == Asleep;
    assert Trying !in mine && Trying !in others;
    assert t.producers == (if side == Producer then mine else others);
    assert t.consumers == (if side == Producer then others else mine);
  }

  /** The woken caller goes through and wakes nobody. */
  lemma Leave(c: Setting, count: nat, s: Monitor, side: Side) returns (t: Monitor)
    requires c.Valid() && count <= c.capacity && ReachableFrom(c, count, s) && Fits(c, s)
    requires OnlyFirstTwo(s, side, Trying, Asleep) && !MustWait(s, side)
    ensures ReachableFrom(c, count, t) && Fits(c, t) && OnlyFirstTwo(t, side, Outside, Asleep)
    ensures t.count == if side == Producer then s.count + 1 else s.count - 1
  {
    assert !SomeAsleep(Threads(s, Other(side)));
    t := Do(c, count, s, Enter(side, 0, 0));
    assert Threads(t, side) == Threads(s, side)[0 := Outside] && Threads(t, Other(side)) == Threads(s, Other(side));
  }

  /** From the empty queue, one producer can fill in any number of items. */
  lemma {:induction false} QuietReachable(c: Setting, count: nat) returns (acts: seq<Action>)
    requires c.Valid() && count <= c.capacity
    ensures Path(c, Quiet(c, 0), acts, Quiet(c, count))
  {
    if count == 0 {
      acts := [];
    } else {
      var before := QuietReachable(c, count - 1);
      var s := Quiet(c, count - 1);
      var s1 := Apply(c, s, Call(Producer, 0));
      PathSnoc(c, Quiet(c, 0), before, s, Call(Producer, 0));
      PathSnoc(c, Quiet(c, 0), before + [Call(Producer, 0)], s1, Enter(Producer, 0, 0));
      acts := before + [Call(Producer, 0)] + [Enter(Producer, 0, 0)];
      assert Apply(c, s1, Enter(Producer, 0, 0)) == Quiet(c, count);
    }
  }

  lemma {:induction false} PathJoin(c: Setting, s: Monitor, a: seq<Action>, t: Monitor, b: seq<Action>, u: Monitor)
    requires Fits(c, s) && Path(c, s, a, t) && Fits(c, t) && Path(c, t, b, u)
    ensures Path(c, s, a + b, u)
    decreases |a|
  {
    if a == [] {
      assert a + b == b;
    } else {
      PathJoin(c, Apply(c, s, a[0]), a[1..], t, b, u);
      assert (a + b)[1..] == a[1..] + b;
    }
  }

  /** A wakeup of this side can get lost just when several threads call it and the queue has room
      for two items. */
  lemma LostIff(c: Setting, side: Side)
    requires c.Valid()
    ensures (exists s :: Reachable(c, s) && Lost(s, side)) <==> Callers(c, side) >= 2 && c.capacity >= 2
  {
    if Callers(c, side) >= 2 && c.capacity >= 2 {
      var count := if side == Consumer then 0 else c.capacity;
      var t := LoseFrom(c, count, side);
      var b :| Path(c, Quiet(c, count), b, t);
      var a := QuietReachable(c, count);
      PathJoin(c, Quiet(c, 0), a, Quiet(c, count), b, t);
      assert Reachable(c, t);
    } else {
      forall s | Reachable(c, s) ensures !Lost(s, side) {
        NeverLost(c, s, side);
      }
    }
  }
}
