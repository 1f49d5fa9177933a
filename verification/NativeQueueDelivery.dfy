/**
 * An addon's queue goes on being read until it is stopped: whatever the other threads do in between, so many steps of
 * the receiver hand over the next message, from wherever in its loop it stands.
 */
module NativeQueueDelivery {
  import opened Words
  import opened NativeQueue
  import opened NativeQueueSafety
  import opened NativeQueueRuns

  // ------------------------------------------------------------------ only a stop ends it

  /** Any step but the receiver's own leaves it where it is, or wakes it. */
  lemma OthersLeave(q: Queue, e: Event)
    requires |q.slots| == SLOTS && Enabled(q, e) && !e.ReceiverRuns?
    ensures var t := Do(q, e);
      && t.received == q.received && t.claimed == q.claimed && q.enqueued <= t.enqueued && (q.stopped ==> t.stopped)
      && (t.receiver == q.receiver || (q.receiver.AsleepTail? && t.receiver.Drain?))
  {
    StepGrows(q, e);
    hide Slot, Wrap, WriterStep, ReceiverStep;
    if e.WriterRuns? { WriterLeaves(q, e.i, e.wake); }
  }

  lemma WriterLeaves(q: Queue, i: nat, wake: nat)
    requires |q.slots| == SLOTS && i < |q.writers|
    ensures var t := WriterStep(q, i, wake);
      && t.received == q.received && t.claimed == q.claimed
      && (t.receiver == q.receiver || (q.receiver.AsleepTail? && t.receiver.Drain?))
  {
    hide Slot, Wrap, Full;
  }

  lemma DoneStep(q: Queue, e: Event)
    requires |q.slots| == SLOTS && Enabled(q, e) && (q.receiver.Done? ==> q.stopped)
    ensures Do(q, e).receiver.Done? ==> Do(q, e).stopped
  {
    hide Slot, Wrap;
    if !e.ReceiverRuns? {
      OthersLeave(q, e);
      hide Do;
    }
  }

  /** The receiver is done only with a queue that was stopped. */
  lemma {:induction false} DoneIsStopped(run: seq<Queue>, events: seq<Event>, i: nat)
    requires IsRun(run, events) && i < |run|
    ensures run[i].receiver.Done? ==> run[i].stopped
  {
    hide Do, Enabled;
    if i > 0 {
      DoneIsStopped(run, events, i - 1);
      DoneStep(run[i - 1], events[i - 1]);
    }
  }

  lemma {:induction false} StaysStopped(run: seq<Queue>, events: seq<Event>, i: nat, j: nat)
    requires IsRun(run, events) && i <= j < |run|
    ensures run[i].stopped ==> run[j].stopped
    decreases j - i
  {
    hide Do, Enabled;
    if i < j {
      StaysStopped(run, events, i, j - 1);
      StepGrows(run[j - 1], events[j - 1]);
    }
  }

  // ------------------------------------------------------------------ how many steps

  /** The receiver's steps from the head of its loop until it has handed a message over. */
  const TURN := 8

  /**
   * From the end of a turn to the next, when the callback threw: STOP, HEAD and TAIL are looked at, and drain begins
   * again.
   */
  const AGAIN := 4 + TURN

  /** At most so many steps of the receiver until it has handed over the k-th message. */
  function Within(q: Queue, k: nat): nat {
    match q.receiver
    case NotifyHead(_) => if q.claimed > k then 2 else 2 + AGAIN
    case Receive(_) => if q.claimed > k then 1 else 1 + AGAIN
    case FinalStop => AGAIN
    case FinalHead => AGAIN - 1
    case WaitTail(_) => AGAIN - 2
    case Drain => 1 + TURN
    case LoopHead => TURN
    case LoopTail(_) => TURN - 1
    case LoopStop(_) => TURN - 2
    case ReadCallback(_) => TURN - 3
    case ReadData(_, _) => TURN - 4
    case StoreHead(_, _) => TURN - 5
    case _ => 0
  }

  /** The k-th message is in the queue or in the receiver's hand, and the receiver is awake. */
  ghost predicate Coming(q: Queue, k: nat) {
    && k < |q.enqueued| && |q.received| <= k
    && (q.claimed == k || (q.claimed == k + 1 && (q.receiver.NotifyHead? || q.receiver.Receive?)))
    && !q.receiver.AsleepTail? && !q.receiver.Done?
  }

  /** A step of the receiver brings it nearer or hands it over. */
  lemma OwnStep(q: Queue, k: nat, throws: bool)
    requires Inv(q) && !q.stopped && Coming(q, k)
    ensures var t := ReceiverStep(q, throws); |t.received| > k || (Coming(t, k) && Within(t, k) < Within(q, k))
  {
    hide Slot, Wrap, WritersOk, SleepersOk, LockOk, Unread;
    WrapInjective(|q.enqueued|, q.claimed);
  }

  /** A step of any other thread leaves it as near. */
  lemma OthersStep(q: Queue, k: nat, e: Event)
    requires Inv(q) && Enabled(q, e) && !e.ReceiverRuns? && Coming(q, k)
    ensures Coming(Do(q, e), k) && Within(Do(q, e), k) == Within(q, k)
  {
    OthersLeave(q, e);
    hide Do, Inv;
  }

  /** The receiver's own steps among the events from i to j. */
  function OwnSteps(events: seq<Event>, i: nat, j: nat): nat
    requires i <= j <= |events|
    decreases j
  {
    if i == j then 0 else OwnSteps(events, i, j - 1) + if events[j - 1].ReceiverRuns? then 1 else 0
  }

  lemma {:induction false} Nearer(run: seq<Queue>, events: seq<Event>, i: nat, j: nat, k: nat)
    requires IsRun(run, events) && i <= j < |run| && !run[j].stopped && Coming(run[i], k)
    ensures |run[j].received| > k || (Coming(run[j], k) && Within(run[j], k) + OwnSteps(events, i, j) <= Within(run[i], k))
    decreases j - i
  {
    hide Do, Enabled, Inv, Coming, Within;
    if i < j {
      var (q, e) := (run[j - 1], events[j - 1]);
      StaysStopped(run, events, j - 1, j);
      Nearer(run, events, i, j - 1, k);
      EveryStateOk(run, events, j - 1);
      StepGrows(q, e);
      if |q.received| <= k {
        match e
        case ReceiverRuns(throws) =>
          OwnStep(q, k, throws);
          assert run[j] == ReceiverStep(q, throws) by { DoReceives(q, throws); }
        case _ => OthersStep(q, k, e);
      }
    }
  }

  lemma DoReceives(q: Queue, throws: bool)
    requires |q.slots| == SLOTS
    ensures Enabled(q, ReceiverRuns(throws)) && Do(q, ReceiverRuns(throws)) == ReceiverStep(q, throws)
  {
  }

  // ------------------------------------------------------------------ the next message is handed over

  /**
   * While the queue is not stopped, fourteen steps of an awake receiver, wherever in its loop it stood and however the
   * other threads' steps fall between them, hand over the next message, whether or not callbacks throw.
   */
  lemma NextIsHandedOver(run: seq<Queue>, events: seq<Event>, i: nat, j: nat)
    requires IsRun(run, events) && i <= j < |run| && !run[j].stopped
    requires run[i].claimed < |run[i].enqueued| && !run[i].receiver.AsleepTail?
    requires OwnSteps(events, i, j) >= 14
    ensures run[i].enqueued[..run[i].claimed + 1] <= run[j].received
  {
    var k := run[i].claimed;
    EveryStateOk(run, events, i);
    StaysStopped(run, events, i, j);
    DoneIsStopped(run, events, i);
    ExactlyOnceInOrder(run, events, i, j);
    ExactlyOnceInOrder(run, events, j, j);
    hide IsRun, Inv;
    Nearer(run, events, i, j, k);
    assert |run[j].received| > k;
    assert forall x :: 0 <= x <= k ==> run[j].received[x] == run[j].enqueued[x] == run[i].enqueued[x];
  }

  /**
   * A receiver asleep with a message there has the lock's holder about to notify it: any other step but a stop's leaves
   * it so, and the holder's own next step wakes it.
   */
  lemma SleeperIsNotified(run: seq<Queue>, events: seq<Event>, i: nat)
    requires IsRun(run, events) && i + 1 < |run|
    requires run[i].receiver.AsleepTail? && run[i].claimed < |run[i].enqueued|
    ensures NotifyDue(run[i])
    ensures events[i].WriterRuns? && events[i].i == run[i].holder ==> run[i + 1].receiver.Drain?
    ensures !(events[i].WriterRuns? && events[i].i == run[i].holder) && !events[i].StopperRuns? ==>
              run[i + 1].receiver.AsleepTail? && NotifyDue(run[i + 1]) && run[i + 1].holder == run[i].holder
  {
    EveryStateOk(run, events, i);
    EveryStateOk(run, events, i + 1);
    NoLostWakeup(run, events, i);
    NoLostWakeup(run, events, i + 1);
    SleeperStep(run[i], events[i]);
  }

  lemma SleeperStep(q: Queue, e: Event)
    requires Inv(q) && Enabled(q, e) && q.receiver.AsleepTail? && NotifyDue(q)
    ensures e.WriterRuns? && e.i == q.holder ==> Do(q, e).receiver.Drain?
    ensures !(e.WriterRuns? && e.i == q.holder) && !e.StopperRuns? ==>
              Do(q, e).receiver.AsleepTail? && NotifyDue(Do(q, e)) && Do(q, e).holder == q.holder
  {
    hide Slot, Wrap, Full, Unread, WritersOk, SleepersOk, ReceiverOk;
  }

  // ------------------------------------------------------------------ and none once it is stopped

  /** Past its look at STOP for a message: it hands that one over yet. */
  ghost predicate Committed(r: Receiver) {
    r.ReadCallback? || r.ReadData? || r.StoreHead? || r.NotifyHead? || r.Receive?
  }

  /** Messages handed over, and the one the receiver is committed to. */
  ghost function Due(q: Queue): nat {
    |q.received| + if Committed(q.receiver) then 1 else 0
  }

  lemma StoppedStep(q: Queue, e: Event)
    requires |q.slots| == SLOTS && Enabled(q, e) && q.stopped
    ensures Do(q, e).stopped && Due(Do(q, e)) == Due(q)
  {
    hide Slot, Wrap;
    if !e.ReceiverRuns? {
      OthersLeave(q, e);
      hide Do;
    }
  }

  /** After a stop no message is handed over but the one already being read, and that one is not dropped. */
  lemma {:induction false} NoneAfterStop(run: seq<Queue>, events: seq<Event>, i: nat, j: nat)
    requires IsRun(run, events) && i <= j < |run| && run[i].stopped
    ensures run[j].stopped && Due(run[j]) == Due(run[i])
    ensures |run[i].received| <= |run[j].received| <= |run[i].received| + 1
    decreases j - i
  {
    hide Do, Enabled;
    if i < j {
      NoneAfterStop(run, events, i, j - 1);
      StoppedStep(run[j - 1], events[j - 1]);
      StepGrows(run[j - 1], events[j - 1]);
    }
  }

  /** Its last look at STOP made and found 0: it waits, whatever happens to STOP. */
  ghost predicate PastStop(r: Receiver) {
    r.FinalHead? || r.WaitTail? || r.AsleepTail?
  }

  /** At most so many steps of the receiver of a stopped queue until it is done. */
  function ToDone(r: Receiver): nat {
    match r
    case ReadCallback(_) => 9
    case ReadData(_, _) => 8
    case StoreHead(_, _) => 7
    case NotifyHead(_) => 6
    case Receive(_) => 5
    case LoopHead => 4
    case LoopTail(_) => 3
    case LoopStop(_) => 2
    case FinalStop => 1
    case Drain => 1
    case _ => 0
  }

  lemma EndingStep(q: Queue, e: Event)
    requires |q.slots| == SLOTS && Enabled(q, e) && q.stopped && !PastStop(q.receiver)
    ensures var r := Do(q, e).receiver;
      && !PastStop(r) && ToDone(r) <= ToDone(q.receiver)
      && (e.ReceiverRuns? && ToDone(q.receiver) > 0 ==> ToDone(r) < ToDone(q.receiver))
  {
    hide Slot, Wrap;
    if !e.ReceiverRuns? {
      OthersLeave(q, e);
      hide Do;
    }
  }

  /** A stopped receiver that has not made its last look at STOP is done within nine of its own steps. */
  lemma {:induction false} StopEnds(run: seq<Queue>, events: seq<Event>, i: nat, j: nat)
    requires IsRun(run, events) && i <= j < |run| && run[i].stopped && !PastStop(run[i].receiver)
    ensures !PastStop(run[j].receiver) && (OwnSteps(events, i, j) >= 9 ==> run[j].receiver.Done?)
    ensures ToDone(run[j].receiver) == 0 || ToDone(run[j].receiver) + OwnSteps(events, i, j) <= ToDone(run[i].receiver)
    decreases j - i
  {
    hide Do, Enabled;
    if i < j {
      StopEnds(run, events, i, j - 1);
      StaysStopped(run, events, i, j - 1);
      EndingStep(run[j - 1], events[j - 1]);
    }
  }

  /**
   * One asleep when it is stopped is woken by the stop's first notify; one not yet asleep sleeps on if nothing comes.
   */
  lemma StopFindsItAsleepOrNot(q: Queue, throws: bool)
    requires |q.slots| == SLOTS && q.stopper.NotStopping?
    ensures q.receiver.AsleepTail? ==> StopperStep(StopperStep(q)).receiver.Drain? && StopperStep(StopperStep(q)).stopped
    ensures var stopped := StopperStep(StopperStep(StopperStep(q)));
            q.receiver == WaitTail(q.tail) ==>
              |stopped.slots| == SLOTS && stopped.stopper.Stopped? && ReceiverStep(stopped, throws).receiver.AsleepTail?
  {
  }
}
