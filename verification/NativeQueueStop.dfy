/** Which writers the end of an addon's queue reaches: exactly who gives the lock back once stop has run. */
module NativeQueueStop {
  import opened Words
  import opened NativeQueue
  import opened NativeQueueSafety
  import opened NativeQueueRuns

  /** Steps from any state, of a run already on its way. */
  ghost predicate Continues(run: seq<Queue>, events: seq<Event>) {
    && |run| == |events| + 1
    && forall k :: 0 <= k < |events| ==>
         |run[k].slots| == SLOTS && Enabled(run[k], events[k]) && run[k + 1] == Do(run[k], events[k])
  }

  /** stop has run to its end and the receiver has seen it. */
  predicate Ended(q: Queue) {
    q.stopped && q.stopper.Stopped? && q.receiver.Done?
  }

  /** Asleep on a full queue, or past its last check of STOP on the way there. */
  predicate Misses(q: Queue, k: nat)
    requires k < |q.writers|
  {
    q.writers[k].AsleepHead? || (q.writers[k].WaitHead? && q.writers[k].head == q.head)
  }

  /** How many of its own steps a writer holding the lock is from giving it back, where it does not miss the stop. */
  function TurnsLeft(w: Writer): nat {
    match w
    case StoreCallback(_, _) => 4
    case LoadHead(_) => 3
    case WaitHead(_, _, _, _) => 3
    case StoreData(_, _) => 3
    case LoadTail(_, _, _) => 2
    case ReloadHead(_, _) => 2
    case StoreTail(_, _) => 2
    case StopFull(_, _, _, _) => 1
    case StopCheck(_, _) => 1
    case NotifyTail => 1
    case _ => 0
  }

  function Turns(events: seq<Event>, k: nat): nat {
    if events == [] then 0
    else Turns(events[..|events| - 1], k) + if IsTurn(events[|events| - 1], k) then 1 else 0
  }

  predicate IsTurn(e: Event, k: nat) {
    e.WriterRuns? && e.i == k
  }

  // ------------------------------------------------------------------ who gives the lock back

  /** In a run, stop's last step comes after its first. */
  lemma {:induction false} StoppedOnceStopping(run: seq<Queue>, events: seq<Event>, i: nat)
    requires IsRun(run, events) && i < |run|
    ensures run[i].stopped <==> !run[i].stopper.NotStopping?
  {
    hide WriterStep, ReceiverStep, WakesOne;
    if i > 0 {
      StoppedOnceStopping(run, events, i - 1);
      var q, e := run[i - 1], events[i - 1];
      match e
      case Send(_, _) =>
      case WriterRuns(j, wake) => WriterLeavesStopper(q, j, wake);
      case ReceiverRuns(throws) => ReceiverLeavesStopper(q, throws);
      case StopperRuns =>
    }
  }

  lemma WriterLeavesStopper(q: Queue, i: nat, wake: nat)
    requires |q.slots| == SLOTS && i < |q.writers|
    ensures WriterStep(q, i, wake).stopped == q.stopped && WriterStep(q, i, wake).stopper == q.stopper
  {
    hide Slot, Wrap, Full;
  }

  lemma ReceiverLeavesStopper(q: Queue, throws: bool)
    requires |q.slots| == SLOTS
    ensures ReceiverStep(q, throws).stopped == q.stopped && ReceiverStep(q, throws).stopper == q.stopper
  {
    hide Slot, Wrap;
  }

  /** Whoever runs, nothing the holder looks at changes but by its own step. */
  ghost predicate SameFor(q: Queue, t: Queue, k: nat) {
    && k < |q.writers| == |t.writers| && t.writers[k] == q.writers[k]
    && t.head == q.head && t.enqueued == q.enqueued
  }

  lemma OthersLeaveIt(q: Queue, e: Event, k: nat)
    requires Inv(q) && Ended(q) && Enabled(q, e) && k < |q.writers| && Holds(q.writers[k]) && !IsTurn(e, k)
    ensures SameFor(q, Do(q, e), k) && Ended(Do(q, e))
  {
    hide Slot, Wrap, Full, Unread, WritersOk, ReceiverOk, SleepersOk, WakesOne;
    if e.WriterRuns? {
      OtherWriterLeavesIt(q, e.i, e.wake, k);
    }
  }

  lemma OtherWriterLeavesIt(q: Queue, i: nat, wake: nat, k: nat)
    requires |q.slots| == SLOTS && Ended(q) && i < |q.writers| && k < |q.writers| && i != k
    requires Holds(q.writers[k]) && !Holds(q.writers[i])
    ensures SameFor(q, WriterStep(q, i, wake), k) && Ended(WriterStep(q, i, wake))
  {
    hide Slot, Wrap, Full;
  }

  /** The holder's own step: one nearer the end, unless it misses the stop. */
  lemma OwnTurn(q: Queue, k: nat, wake: nat)
    requires |q.slots| == SLOTS && Ended(q) && k < |q.writers| && Holds(q.writers[k]) && !q.writers[k].Unlock?
    ensures Ended(WriterStep(q, k, wake)) && k < |WriterStep(q, k, wake).writers|
    ensures Misses(q, k) ==> WriterStep(q, k, wake).writers[k].AsleepHead?
    ensures !Misses(q, k) ==> Nearer(q.writers[k], WriterStep(q, k, wake).writers[k])
    ensures !Misses(q, k) ==> !Misses(WriterStep(q, k, wake), k)
  {
    hide Slot, Wrap, Full;
  }

  predicate Nearer(w: Writer, next: Writer) {
    Holds(next) && TurnsLeft(next) < TurnsLeft(w)
  }

  /** Up to the first state with the lock given back, every turn of the holder brings it one nearer. */
  lemma {:induction false} ComesNearer(run: seq<Queue>, events: seq<Event>, k: nat, i: nat)
    requires Continues(run, events) && i < |run| && Inv(run[0]) && Ended(run[0])
    requires k < |run[0].writers| && Holds(run[0].writers[k])
    requires forall j :: 0 <= j < i ==> !(k < |run[j].writers| && run[j].writers[k].Unlock?)
    ensures Inv(run[i]) && Ended(run[i]) && k < |run[i].writers| && Holds(run[i].writers[k])
    ensures Misses(run[i], k) == Misses(run[0], k)
    ensures Misses(run[0], k) && Turns(events[..i], k) > 0 ==> run[i].writers[k].AsleepHead?
    ensures !Misses(run[0], k) ==> TurnsLeft(run[i].writers[k]) + Turns(events[..i], k) <= TurnsLeft(run[0].writers[k])
  {
    hide Inv, Enabled, Do;
    if i == 0 {
      assert events[..0] == [];
    } else {
      ComesNearer(run, events, k, i - 1);
      var q, e := run[i - 1], events[i - 1];
      assert events[..i][..i - 1] == events[..i - 1];
      DoOk(q, e);
      if IsTurn(e, k) {
        TurnOf(q, e, k);
      } else {
        OthersLeaveIt(q, e, k);
      }
    }
  }

  /** OwnTurn as a step of a run. */
  lemma TurnOf(q: Queue, e: Event, k: nat)
    requires Inv(q) && Ended(q) && Enabled(q, e) && IsTurn(e, k)
    requires k < |q.writers| && Holds(q.writers[k]) && !q.writers[k].Unlock?
    ensures Ended(Do(q, e)) && k < |Do(q, e).writers|
    ensures Misses(q, k) ==> Do(q, e).writers[k].AsleepHead?
    ensures !Misses(q, k) ==> Nearer(q.writers[k], Do(q, e).writers[k]) && !Misses(Do(q, e), k)
  {
    hide Unread, WritersOk, ReceiverOk, SleepersOk, LockOk, WriterStep, Nearer, Holds, Misses;
    OwnTurn(q, k, e.wake);
  }

  ghost predicate Unlocks(run: seq<Queue>, k: nat) {
    exists i :: 0 <= i < |run| && k < |run[i].writers| && run[i].writers[k].Unlock?
  }

  /**
   * Exactly who the stop reaches. Once stop has run and the receiver is done, whatever the other threads do, a writer
   * holding the lock gives it back within four steps of its own if and only if it is neither asleep on the full queue
   * nor past its check of STOP with the head it saw still the head: such a writer goes to sleep and never gives it back.
   */
  lemma UnlocksUnlessItMisses(run: seq<Queue>, events: seq<Event>, k: nat)
    requires Continues(run, events) && Inv(run[0]) && Ended(run[0])
    requires k < |run[0].writers| && Holds(run[0].writers[k]) && Turns(events, k) >= 4
    ensures Unlocks(run, k) <==> !Misses(run[0], k)
    ensures Misses(run[0], k) ==> k < |run[|events|].writers| && run[|events|].writers[k].AsleepHead?
  {
    hide Inv, Enabled, Do;
    assert events[..|events|] == events;
    if Misses(run[0], k) {
      forall i | 0 <= i < |run|
        ensures !(k < |run[i].writers| && run[i].writers[k].Unlock?)
      {
        NeverUnlocks(run, events, k, i);
      }
      ComesNearer(run, events, k, |events|);
    } else if !Unlocks(run, k) {
      ComesNearer(run, events, k, |events|);
      assert false;
    }
  }

  lemma {:induction false} NeverUnlocks(run: seq<Queue>, events: seq<Event>, k: nat, i: nat)
    requires Continues(run, events) && i < |run| && Inv(run[0]) && Ended(run[0])
    requires k < |run[0].writers| && Holds(run[0].writers[k]) && Misses(run[0], k)
    ensures k < |run[i].writers| && !run[i].writers[k].Unlock?
  {
    hide Inv, Continues;
    forall j | 0 <= j < i
      ensures !(k < |run[j].writers| && run[j].writers[k].Unlock?)
    {
      NeverUnlocks(run, events, k, j);
    }
    ComesNearer(run, events, k, i);
  }

  /**
   * Nothing wakes a writer left asleep: in every continuation it sleeps on with the lock in its hands, so nobody else
   * ever gets it and nothing is ever put in the queue again.
   */
  lemma {:induction false} SleepsForEver(run: seq<Queue>, events: seq<Event>, k: nat, i: nat)
    requires Continues(run, events) && i < |run| && Inv(run[0]) && Ended(run[0])
    requires k < |run[0].writers| && run[0].writers[k].AsleepHead?
    ensures Inv(run[i]) && Ended(run[i]) && k < |run[i].writers|
    ensures run[i].writers[k] == run[0].writers[k] && run[i].locked && run[i].holder == k
    ensures run[i].enqueued == run[0].enqueued
    ensures forall j :: 0 <= j < |run[i].writers| && j != k ==> !Holds(run[i].writers[j])
  {
    hide QueueOk, Unread, WritersOk, ReceiverOk, SleepersOk, Enabled, Do;
    if i > 0 {
      SleepsForEver(run, events, k, i - 1);
      var q, e := run[i - 1], events[i - 1];
      DoOk(q, e);
      if IsTurn(e, k) {
        AsleepStays(q, e, k);
      } else {
        OthersLeaveIt(q, e, k);
      }
    }
  }

  lemma AsleepStays(q: Queue, e: Event, k: nat)
    requires |q.slots| == SLOTS && Enabled(q, e) && IsTurn(e, k) && k < |q.writers| && q.writers[k].AsleepHead?
    ensures Do(q, e) == q
  {
  }

  // ------------------------------------------------------------------ a run that leaves a writer asleep

  /** Every writer idle, `n` messages in the queue and none taken out, the receiver not yet running. */
  ghost predicate Filling(q: Queue, n: nat) {
    && |q.slots| == SLOTS && |q.writers| > 0 && q.head == 0 == q.claimed && q.tail == n == |q.enqueued| && n <= SLOTS
    && !q.locked && !q.stopped && q.receiver.Drain? && q.stopper.NotStopping?
    && forall i :: 0 <= i < |q.writers| ==> q.writers[i].Idle?
  }

  /** As `Filling`, with the first writer at `w` and the lock as it has it. */
  ghost predicate FirstAt(q: Queue, n: nat, w: Writer) {
    && |q.slots| == SLOTS && |q.writers| > 0 && q.head == 0 == q.claimed && q.tail == n == |q.enqueued| && n <= SLOTS
    && q.locked == Holds(w) && !q.stopped && q.receiver.Drain? && q.stopper.NotStopping?
    && q.writers[0] == w && forall i :: 0 < i < |q.writers| ==> q.writers[i].Idle?
  }

  /** The first writer's next program point, with `n` messages in the queue. */
  function NextPoint(n: nat, w: Writer): Writer {
    match w
    case TryLock(m) => LoadHead(m)
    case LoadHead(m) => LoadTail(m, 0, 0)
    case LoadTail(m, _, _) => if n == SLOTS then StopFull(m, 0, 0, n) else StopCheck(m, n)
    case StopFull(m, _, _, _) => WaitHead(m, 0, 0, n)
    case StopCheck(m, _) => StoreCallback(m, n)
    case StoreCallback(m, _) => StoreData(m, n)
    case StoreData(m, _) => StoreTail(m, n)
    case StoreTail(_, _) => NotifyTail
    case NotifyTail => Unlock
    case Unlock => NotifyLock
    case _ => Idle
  }

  /** The program points a send made alone goes through, each with the counters it has seen. */
  predicate OnPath(n: nat, w: Writer) {
    match w
    case TryLock(_) => true
    case LoadHead(_) => true
    case LoadTail(_, head, claimed) => head == 0 == claimed
    case StopFull(_, head, claimed, tail) => head == 0 == claimed && tail == n == SLOTS
    case StopCheck(_, tail) => tail == n < SLOTS
    case StoreCallback(_, tail) => tail == n < SLOTS
    case StoreData(_, tail) => tail == n < SLOTS
    case StoreTail(_, tail) => tail == n < SLOTS
    case NotifyTail => true
    case Unlock => true
    case NotifyLock => true
    case _ => false
  }

  lemma FirstMoves(q: Queue, n: nat, w: Writer)
    requires FirstAt(q, n, w) && OnPath(n, w)
    ensures Enabled(q, WriterRuns(0, 0))
    ensures FirstAt(Do(q, WriterRuns(0, 0)), if w.StoreTail? then n + 1 else n, NextPoint(n, w))
  {
    hide Slot;
    var t := WriterStep(q, 0, 0);
    assert forall i :: 0 < i < |t.writers| ==> t.writers[i] == q.writers[i];
  }

  lemma Extends(run: seq<Queue>, events: seq<Event>, e: Event)
    requires IsRun(run, events) && |run[|events|].slots| == SLOTS && Enabled(run[|events|], e)
    ensures IsRun(run + [Do(run[|events|], e)], events + [e])
  {
    hide Enabled, Do, Create;
  }

  /** The first writer runs until it is at `w`, `steps` of its own away. */
  lemma {:induction false} FirstRuns(run: seq<Queue>, events: seq<Event>, n: nat, w: Writer, steps: nat)
    returns (run': seq<Queue>, events': seq<Event>)
    requires IsRun(run, events) && FirstAt(run[|events|], n, w) && AllOnPath(n, w, steps)
    ensures IsRun(run', events') && FirstAt(run'[|events'|], After(n, w, steps).0, After(n, w, steps).1)
    decreases steps
  {
    hide IsRun, FirstAt, OnPath, NextPoint, Enabled, Do;
    run', events' := run, events;
    if steps > 0 {
      var e := WriterRuns(0, 0);
      RunEnds(run, events);
      FirstMoves(run[|events|], n, w);
      FirstHasSlots(run[|events|], n, w);
      Extends(run, events, e);
      RunEnds(run + [Do(run[|events|], e)], events + [e]);
      run', events' := FirstRuns(run + [Do(run[|events|], e)], events + [e],
                                 if w.StoreTail? then n + 1 else n, NextPoint(n, w), steps - 1);
    }
  }

  lemma FirstHasSlots(q: Queue, n: nat, w: Writer)
    requires FirstAt(q, n, w)
    ensures |q.slots| == SLOTS
  {
  }

  lemma RunEnds(run: seq<Queue>, events: seq<Event>)
    requires IsRun(run, events)
    ensures |run| == |events| + 1
  {
  }

  function After(n: nat, w: Writer, steps: nat): (nat, Writer)
    decreases steps
  {
    if steps == 0 then (n, w) else After(if w.StoreTail? then n + 1 else n, NextPoint(n, w), steps - 1)
  }

  predicate AllOnPath(n: nat, w: Writer, steps: nat)
    decreases steps
  {
    steps > 0 ==> OnPath(n, w) && AllOnPath(if w.StoreTail? then n + 1 else n, NextPoint(n, w), steps - 1)
  }

  /** The first writer calls send. */
  lemma FirstSends(run: seq<Queue>, events: seq<Event>, n: nat, m: Message)
    returns (run': seq<Queue>, events': seq<Event>)
    requires IsRun(run, events) && Filling(run[|events|], n)
    ensures IsRun(run', events') && FirstAt(run'[|events'|], n, TryLock(m))
  {
    hide IsRun;
    RunEnds(run, events);
    Extends(run, events, Send(0, m));
    run', events' := run + [Do(run[|events|], Send(0, m))], events + [Send(0, m)];
  }

  /** A whole send by the first writer, up to where it waits on the full queue when it is full. */
  lemma SendPath(n: nat, m: Message)
    requires n <= SLOTS
    ensures n < SLOTS ==> AllOnPath(n, TryLock(m), 10) && After(n, TryLock(m), 10) == (n + 1, Idle)
    ensures n == SLOTS ==> AllOnPath(n, TryLock(m), 4) && After(n, TryLock(m), 4) == (n, WaitHead(m, 0, 0, n))
  {
  }

  /** The first writer's first `n` sends, the receiver not yet running. */
  lemma {:induction false} Fills(writers: nat, m: Message, n: nat) returns (run: seq<Queue>, events: seq<Event>)
    requires writers > 0 && n <= SLOTS
    ensures IsRun(run, events) && Filling(run[|events|], n)
    decreases n
  {
    hide AllOnPath, After, OnPath, NextPoint, Enabled, Do;
    if n == 0 {
      run, events := [Create(writers)], [];
    } else {
      run, events := Fills(writers, m, n - 1);
      run, events := FirstSends(run, events, n - 1, m);
      SendPath(n - 1, m);
      run, events := FirstRuns(run, events, n - 1, TryLock(m), 10);
    }
  }

  /** stop's three steps come while the first writer waits; then it goes to sleep and the receiver finds the stop. */
  lemma StopsInBetween(run: seq<Queue>, events: seq<Event>, n: nat, m: Message)
    returns (run': seq<Queue>, events': seq<Event>)
    requires IsRun(run, events) && FirstAt(run[|events|], n, WaitHead(m, 0, 0, n))
    ensures IsRun(run', events') && |run'[|events'|].writers| > 0
    ensures Ended(run'[|events'|]) && run'[|events'|].writers[0].AsleepHead?
  {
    hide IsRun;
    RunEnds(run, events);
    var q0 := run[|events|];
    var q1 := StopperStep(q0);
    var q2 := StopperStep(q1);
    var q3 := StopperStep(q2);
    assert q3.writers[0] == q0.writers[0];
    var q4 := WriterStep(q3, 0, 0);
    var q5 := ReceiverStep(q4, false);
    run', events' := ExtendsTo(run, events, StopperRuns, q1);
    run', events' := ExtendsTo(run', events', StopperRuns, q2);
    run', events' := ExtendsTo(run', events', StopperRuns, q3);
    run', events' := ExtendsTo(run', events', WriterRuns(0, 0), q4);
    run', events' := ExtendsTo(run', events', ReceiverRuns(false), q5);
  }

  lemma ExtendsTo(run: seq<Queue>, events: seq<Event>, e: Event, t: Queue)
    returns (run': seq<Queue>, events': seq<Event>)
    requires IsRun(run, events) && |run| == |events| + 1
    requires |run[|events|].slots| == SLOTS && Enabled(run[|events|], e) && t == Do(run[|events|], e)
    ensures IsRun(run', events') && |run'| == |events'| + 1 && run'[|events'|] == t
  {
    hide Enabled, Do, Create;
    Extends(run, events, e);
    run', events' := run + [t], events + [e];
  }

  /**
   * The stop does miss a writer in a run from the start: with any number of writers, after 1024 sends the receiver has
   * not come to, one more send finds the queue full and checks STOP, stop runs to its end, and the send goes to sleep
   * with the lock in its hands and the receiver done.
   */
  lemma StopLeavesAWriterAsleep(writers: nat, m: Message)
    requires writers > 0
    ensures exists run, events :: IsRun(run, events) && LeavesAsleep(run[|events|], 0)
  {
    hide IsRun, Ended, AllOnPath, After;
    var run, events := Fills(writers, m, SLOTS);
    run, events := FirstSends(run, events, SLOTS, m);
    SendPath(SLOTS, m);
    run, events := FirstRuns(run, events, SLOTS, TryLock(m), 4);
    run, events := StopsInBetween(run, events, SLOTS, m);
    RunEnds(run, events);
    assert LeavesAsleep(run[|events|], 0);
  }

  ghost predicate LeavesAsleep(q: Queue, k: nat) {
    Ended(q) && k < |q.writers| && q.writers[k].AsleepHead?
  }
}
