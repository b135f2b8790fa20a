/** The waiting of src/queue.c: threads that lock, test a cached flag, sleep on a condition variable
    and are woken by signals that are sent only when a flag changes. A call between lock and unlock
    is one step, since the mutex is held throughout; pthread_cond_wait gives the mutex up, so a
    sleeper tests the flag again in a later step, after a signal or without one. */
module QueueWaiting {
  import QM = QueueModel

  /** How many items the queue holds at most, and how many threads call each side. */
  datatype Setting = Setting(capacity: nat, producers: nat, consumers: nat) {
    predicate Valid() {
      1 <= capacity && 1 <= producers && 1 <= consumers
    }
  }

  datatype Side = Producer | Consumer

  function Other(side: Side): Side {
    if side == Producer then Consumer else Producer
  }

  /** `Trying`: in a call, about to test the flag. `Asleep`: waiting, and not signalled since. */
  datatype Status = Outside | Trying | Asleep

  datatype Monitor = Monitor(count: nat, full: bool, empty: bool, producers: seq<Status>, consumers: seq<Status>)

  function Threads(s: Monitor, side: Side): seq<Status> {
    if side == Producer then s.producers else s.consumers
  }

  function WithThreads(s: Monitor, side: Side, t: seq<Status>): Monitor {
    if side == Producer then s.(producers := t) else s.(consumers := t)
  }

  /** `wake` is the sleeper that a signal of this step wakes, if there is one. */
  datatype Action = Call(side: Side, i: nat) | Enter(side: Side, i: nat, wake: nat) | Spurious(side: Side, i: nat)

  predicate Fits(c: Setting, s: Monitor) {
    |s.producers| == c.producers && |s.consumers| == c.consumers && s.count <= c.capacity &&
    (s.full <==> s.count == c.capacity) && (s.empty <==> s.count == 0)
  }

  /** The flag that makes a caller of this side wait. */
  predicate MustWait(s: Monitor, side: Side) {
    if side == Producer then s.full else s.empty
  }

  /** The queue after one item more or less, with its flags brought up to date. */
  function Moved(c: Setting, s: Monitor, side: Side): Monitor
    requires side == Consumer ==> s.count > 0
  {
    var count := if side == Producer then s.count + 1 else s.count - 1;
    s.(count := count, full := count == c.capacity, empty := count == 0)
  }

  /** The other side's flag has just gone from set to clear. */
  predicate Signals(c: Setting, s: Monitor, side: Side)
    requires side == Consumer ==> s.count > 0
  {
    MustWait(s, Other(side)) && !MustWait(Moved(c, s, side), Other(side))
  }

  /** Flags and signals are those of the queue itself, whenever the count is its length. */
  lemma MonitorIsQueue<T>(c: Setting, s: Monitor, q: QM.Queue<T>, item: T)
    requires QM.Valid(q) && q.Size() >= 2 && c.capacity == q.Size() - 1
    requires Fits(c, s) && s.count == |QM.Contents(q)|
    ensures MustWait(s, Producer) == q.full && MustWait(s, Consumer) == q.empty
    ensures !q.full ==> var r := QM.EnqueueItem(q, item);
      && QM.Valid(r) && Moved(c, s, Producer).count == |QM.Contents(r)|
      && (Signals(c, s, Producer) <==> QM.SignalsNotEmpty(q, r))
    ensures !q.empty ==> var r := QM.DequeueItem(q);
      && QM.Valid(r) && Moved(c, s, Consumer).count == |QM.Contents(r)|
      && (Signals(c, s, Consumer) <==> QM.SignalsNotFull(q, r))
  {
    QM.FlagsAgree(q);
    if !q.full {
      QM.EnqueueAppends(q, item);
      FlagsOf(QM.EnqueueItem(q, item), c.capacity);
    }
    if !q.empty {
      QM.DequeueRemoves(q);
      FlagsOf(QM.DequeueItem(q), c.capacity);
    }
  }

  lemma FlagsOf<T>(q: QM.Queue<T>, capacity: nat)
    requires QM.Valid(q) && q.Size() >= 2 && capacity == q.Size() - 1
    ensures q.full <==> |QM.Contents(q)| == capacity
    ensures q.empty <==> |QM.Contents(q)| == 0
  {
    QM.FlagsAgree(q);
  }

  predicate SomeAsleep(t: seq<Status>) {
    exists j | 0 <= j < |t| :: t[j] == Asleep
  }

  predicate Enabled(c: Setting, s: Monitor, a: Action)
    requires Fits(c, s)
  {
    a.i < |Threads(s, a.side)| &&
    match a
    case Call(side, i) => Threads(s, side)[i] == Outside
    case Spurious(side, i) => Threads(s, side)[i] == Asleep
    case Enter(side, i, wake) =>
      Threads(s, side)[i] == Trying &&
      (!MustWait(s, side) && Signals(c, s, side) && SomeAsleep(Threads(s, Other(side))) ==>
         wake < |Threads(s, Other(side))| && Threads(s, Other(side))[wake] == Asleep)
  }

  function Apply(c: Setting, s: Monitor, a: Action): (s': Monitor)
    requires Fits(c, s) && Enabled(c, s, a)
    ensures Fits(c, s')
  {
    match a
    case Call(side, i) => WithThreads(s, side, Threads(s, side)[i := Trying])
    case Spurious(side, i) => WithThreads(s, side, Threads(s, side)[i := Trying])
    case Enter(side, i, wake) =>
      if MustWait(s, side) then WithThreads(s, side, Threads(s, side)[i := Asleep])
      else
        var done := WithThreads(Moved(c, s, side), side, Threads(s, side)[i := Outside]);
        if Signals(c, s, side) && SomeAsleep(Threads(s, Other(side)))
        then WithThreads(done, Other(side), Threads(s, Other(side))[wake := Trying])
        else done
  }

  ghost predicate Path(c: Setting, s: Monitor, acts: seq<Action>, t: Monitor)
    requires Fits(c, s)
    decreases |acts|
  {
    if acts == [] then s == t
    else Enabled(c, s, acts[0]) && Path(c, Apply(c, s, acts[0]), acts[1..], t)
  }

  /** Nobody is in a call. */
  function Quiet(c: Setting, count: nat): Monitor {
    Monitor(count, count == c.capacity, count == 0, seq(c.producers, _ => Outside), seq(c.consumers, _ => Outside))
  }

  /** Reached from a queue that holds `count` items while nobody is in a call. */
  ghost predicate ReachableFrom(c: Setting, count: nat, s: Monitor)
    requires c.Valid() && count <= c.capacity
  {
    exists acts :: Path(c, Quiet(c, count), acts, s)
  }

  /** Reached from the new, empty queue. */
  ghost predicate Reachable(c: Setting, s: Monitor)
    requires c.Valid()
  {
    ReachableFrom(c, 0, s)
  }

  lemma {:induction false} PathSnoc(c: Setting, s: Monitor, acts: seq<Action>, t: Monitor, a: Action)
    requires Fits(c, s) && Path(c, s, acts, t) && Fits(c, t) && Enabled(c, t, a)
    ensures Path(c, s, acts + [a], Apply(c, t, a))
    decreases |acts|
  {
    if acts == [] {
      assert ([a])[1..] == [];
    } else {
      PathSnoc(c, Apply(c, s, acts[0]), acts[1..], t, a);
      assert (acts + [a])[1..] == acts[1..] + [a];
    }
  }

  lemma Do(c: Setting, count: nat, s: Monitor, a: Action) returns (t: Monitor)
    requires c.Valid() && count <= c.capacity && ReachableFrom(c, count, s) && Fits(c, s) && Enabled(c, s, a)
    ensures t == Apply(c, s, a) && ReachableFrom(c, count, t)
  {
    var acts :| Path(c, Quiet(c, count), acts, s);
    PathSnoc(c, Quiet(c, count), acts, s, a);
    t := Apply(c, s, a);
  }

  // ----- One caller on a side -----

  /** Whoever sleeps on this side has to. */
  ghost predicate SleepersMustWait(s: Monitor, side: Side) {
    SomeAsleep(Threads(s, side)) ==> MustWait(s, side)
  }

  lemma SleepersStep(c: Setting, s: Monitor, a: Action, side: Side)
    requires Fits(c, s) && Enabled(c, s, a) && |Threads(s, side)| <= 1 && SleepersMustWait(s, side)
    ensures SleepersMustWait(Apply(c, s, a), side)
  {
  }

  lemma {:induction false} SleepersPath(c: Setting, s: Monitor, acts: seq<Action>, t: Monitor, side: Side)
    requires Fits(c, s) && Path(c, s, acts, t) && |Threads(s, side)| <= 1 && SleepersMustWait(s, side)
    ensures Fits(c, t) && SleepersMustWait(t, side)
    decreases |acts|
  {
    if acts != [] {
      SleepersStep(c, s, acts[0], side);
      SleepersPath(c, Apply(c, s, acts[0]), acts[1..], t, side);
    }
  }

  /** With one consumer, it sleeps unsignalled only on an empty queue; with one producer, it does
      so only on a full one. This holds whatever is done on the other side. */
  lemma NoLostWakeup(c: Setting, s: Monitor)
    requires c.Valid() && Reachable(c, s)
    ensures c.consumers == 1 && SomeAsleep(s.consumers) ==> s.count == 0
    ensures c.producers == 1 && SomeAsleep(s.producers) ==> s.count == c.capacity
  {
    var acts :| Path(c, Quiet(c, 0), acts, s);
    if c.consumers == 1 { SleepersPath(c, Quiet(c, 0), acts, s, Consumer); }
    if c.producers == 1 { SleepersPath(c, Quiet(c, 0), acts, s, Producer); }
  }
}
