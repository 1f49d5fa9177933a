/** The promises of an addon's queue over whole runs, with any number of writers. */
module NativeQueueRuns {
  import opened Words
  import opened NativeQueue
  import opened NativeQueueSafety

  lemma {:induction false} EveryStateOk(run: seq<Queue>, events: seq<Event>, i: nat)
    requires IsRun(run, events) && i < |run|
    ensures Inv(run[i])
  {
    hide Inv, Do, Create, Enabled;
    if i == 0 {
      var writers: nat :| run[0] == Create(writers);
      CreateOk(writers);
    } else {
      EveryStateOk(run, events, i - 1);
      DoOk(run[i - 1], events[i - 1]);
    }
  }

  lemma StepGrows(q: Queue, e: Event)
    requires |q.slots| == SLOTS && Enabled(q, e)
    ensures q.enqueued <= Do(q, e).enqueued && q.received <= Do(q, e).received
    ensures q.claimed <= Do(q, e).claimed && (q.stopped ==> Do(q, e).stopped)
  {
    hide Slot, Wrap, ReceiverStep, WriterStep;
    match e
    case Send(i, m) =>
    case WriterRuns(i, wake) => WriterGrows(q, i, wake);
    case ReceiverRuns(throws) => ReceiverGrows(q, throws);
    case StopperRuns =>
  }

  lemma WriterGrows(q: Queue, i: nat, wake: nat)
    requires |q.slots| == SLOTS && i < |q.writers|
    ensures var t := WriterStep(q, i, wake);
            && q.enqueued <= t.enqueued && t.received == q.received && t.claimed == q.claimed && t.stopped == q.stopped
  {
    hide Slot, Wrap, Full;
  }

  lemma ReceiverGrows(q: Queue, throws: bool)
    requires |q.slots| == SLOTS
    ensures var t := ReceiverStep(q, throws);
            && t.enqueued == q.enqueued && q.received <= t.received && q.claimed <= t.claimed && t.stopped == q.stopped
  {
    hide Slot, Wrap;
  }

  lemma {:induction false} EnqueuedGrows(run: seq<Queue>, events: seq<Event>, i: nat, j: nat)
    requires IsRun(run, events) && i <= j < |run|
    ensures run[i].enqueued <= run[j].enqueued && run[i].received <= run[j].received
    decreases j - i
  {
    hide Do, Enabled;
    if i < j {
      EnqueuedGrows(run, events, i, j - 1);
      StepGrows(run[j - 1], events[j - 1]);
    }
  }

  /**
   * Whatever the writers, the receiver, a throwing callback or a stop do in between: the messages received are the
   * first ones enqueued, each once, in order; at most the one being handed over is claimed and not yet received; the
   * rest are unread in their own slots, and the counters' signed difference is their number, from 0 to 1024.
   */
  lemma ExactlyOnceInOrder(run: seq<Queue>, events: seq<Event>, i: nat, j: nat)
    requires IsRun(run, events) && i <= j < |run|
    ensures run[i].received <= run[i].enqueued <= run[j].enqueued
    ensures |run[i].received| <= run[i].claimed <= |run[i].received| + 1
    ensures run[i].claimed <= |run[i].enqueued| && |run[i].slots| == SLOTS
    ensures forall k :: run[i].claimed <= k < |run[i].enqueued| ==> run[i].slots[Slot(k)] == run[i].enqueued[k]
    ensures 0 <= Signed(run[i].tail - run[i].head) == |run[i].enqueued| - run[i].claimed <= SLOTS
  {
    hide IsRun, Slot, WritersOk, SleepersOk, LockOk;
    EveryStateOk(run, events, i);
    EnqueuedGrows(run, events, i, j);
    DifferenceOfWraps(|run[i].enqueued|, run[i].claimed);
  }

  /** At most one writer is ever between taking the lock and giving it back. */
  lemma MutualExclusion(run: seq<Queue>, events: seq<Event>, i: nat, a: nat, b: nat)
    requires IsRun(run, events) && i < |run|
    requires a < |run[i].writers| && b < |run[i].writers| && Holds(run[i].writers[a]) && Holds(run[i].writers[b])
    ensures a == b
  {
    hide IsRun, Unread, WritersOk, ReceiverOk, SleepersOk, QueueOk;
    EveryStateOk(run, events, i);
  }

  /**
   * No lost wakeup: a sleeping receiver has an empty queue or a notify to come, a writer asleep on a full queue still
   * has it full or a notify to come, and writers asleep on the lock have it held or somebody awake on the way to it.
   */
  lemma NoLostWakeup(run: seq<Queue>, events: seq<Event>, i: nat)
    requires IsRun(run, events) && i < |run|
    ensures var q := run[i];
            && (q.receiver.AsleepTail? ==> q.claimed == |q.enqueued| || NotifyDue(q))
            && (forall k :: 0 <= k < |q.writers| && q.writers[k].AsleepHead? ==>
                  |q.enqueued| == q.claimed + SLOTS || q.receiver.NotifyHead?)
            && ((exists k :: 0 <= k < |q.writers| && q.writers[k].AsleepLock?) ==>
                  (q.locked || exists k :: 0 <= k < |q.writers| && Comes(q.writers[k])))
  {
    hide IsRun, Unread, LockOk;
    EveryStateOk(run, events, i);
    assert forall k :: 0 <= k < |run[i].writers| ==> WriterOk(run[i], run[i].writers[k]);
  }

  /** The receiver and the writer holding the lock are never both asleep: one of them can always go on. */
  lemma NeverBothAsleep(run: seq<Queue>, events: seq<Event>, i: nat, k: nat)
    requires IsRun(run, events) && i < |run| && k < |run[i].writers|
    ensures !(run[i].receiver.AsleepTail? && run[i].writers[k].AsleepHead?)
  {
    NoLostWakeup(run, events, i);
    if run[i].writers[k].AsleepHead? && NotifyDue(run[i]) {
      MutualExclusion(run, events, i, k, run[i].holder);
    }
  }

  /** The receiver alone, for a number of steps. */
  function Receives(q: Queue, steps: nat, throws: bool): Queue
    requires |q.slots| == SLOTS
    decreases steps
  {
    if steps == 0 then q else Receives(ReceiverStep(q, throws), steps - 1, throws)
  }

  lemma ReadsNext(q: Queue, throws: bool)
    requires Inv(q) && !q.stopped && q.receiver.LoopHead? && q.claimed < |q.enqueued|
    ensures Receives(q, 5, throws) == q.(receiver := StoreHead(q.head, q.enqueued[q.claimed]))
  {
    hide Slot, Wrap, WritersOk, SleepersOk, LockOk, Receives;
    HeadSlot(q);
    WrapInjective(|q.enqueued|, q.claimed);
    var q1 := ReceiverStep(q, throws);
    var q2 := ReceiverStep(q1, throws);
    var q3 := ReceiverStep(q2, throws);
    var q4 := ReceiverStep(q3, throws);
    assert q4.receiver == ReadData(q.head, q.enqueued[q.claimed].callback);
    var q5 := ReceiverStep(q4, throws);
    assert q5 == q.(receiver := StoreHead(q.head, q.enqueued[q.claimed]));
    ReceivesSteps(q, [q1, q2, q3, q4, q5], throws);
  }

  lemma {:induction false} ReceivesSteps(q: Queue, states: seq<Queue>, throws: bool)
    requires |q.slots| == SLOTS && states != []
    requires forall k :: 0 <= k < |states| ==> |states[k].slots| == SLOTS
    requires states[0] == ReceiverStep(q, throws)
    requires forall k :: 0 < k < |states| ==> states[k] == ReceiverStep(states[k - 1], throws)
    ensures Receives(q, |states|, throws) == states[|states| - 1]
    decreases |states|
  {
    hide ReceiverStep;
    if |states| > 1 {
      var rest := states[1..];
      assert rest[0] == ReceiverStep(states[0], throws);
      ReceivesSteps(states[0], rest, throws);
    }
  }

  /** One turn of the drain loop hands over the next message, whether or not the callback throws. */
  lemma NextIsReceived(q: Queue, throws: bool)
    requires Inv(q) && !q.stopped && q.receiver.LoopHead? && q.claimed < |q.enqueued|
    ensures var t := Receives(q, 5, throws);
            && |t.slots| == SLOTS
            && Receives(t, 3, throws).received == q.received + [q.enqueued[q.claimed]]
            && Receives(t, 3, throws).receiver == if throws then FinalStop else LoopHead
  {
    hide Slot, Wrap, WritersOk, SleepersOk, LockOk, Receives;
    ReadsNext(q, throws);
    var t := Receives(q, 5, throws);
    var t1 := ReceiverStep(t, throws);
    var t2 := ReceiverStep(t1, throws);
    var t3 := ReceiverStep(t2, throws);
    ReceivesSteps(t, [t1, t2, t3], throws);
  }

  // ------------------------------------------------------------------ stop

  /** stop's last notify leaves no writer asleep on a full queue. */
  lemma StopWakesSleepers(q: Queue, k: nat)
    requires |q.slots| == SLOTS && q.stopper.StopNotifyHead? && k < |q.writers|
    ensures StopperStep(q).writers[k] == if q.writers[k].AsleepHead? then ReloadHead(q.writers[k].m, q.writers[k].tail)
                                         else q.writers[k]
    ensures !StopperStep(q).writers[k].AsleepHead?
  {
  }

  /** A writer woken once the queue is stopped drops its send: its next two steps give the lock back. */
  lemma StoppedWriterDrops(q: Queue, k: nat, wake: nat)
    requires Inv(q) && q.stopped && k < |q.writers| && q.writers[k].ReloadHead?
    ensures var t := WriterStep(q, k, wake);
            && |t.slots| == SLOTS && k < |t.writers|
            && WriterStep(t, k, wake).writers[k] == Unlock
            && WriterStep(t, k, wake).enqueued == q.enqueued
  {
    hide Slot, Wrap, Full;
  }

  /**
   * A writer past its check of STOP and not yet asleep misses the stop: though stop ran to its end in between, its
   * next step goes to sleep on the full queue. NativeQueueStop has a run that gets there, and what comes of it.
   */
  lemma StopMissesAWriterNotYetAsleep(q: Queue, k: nat, wake: nat)
    requires |q.slots| == SLOTS && q.stopper.NotStopping? && k < |q.writers|
    requires q.writers[k].WaitHead? && q.writers[k].head == q.head
    ensures var stopped := StopperStep(StopperStep(StopperStep(q)));
            && stopped.stopper.Stopped? && stopped.stopped && |stopped.slots| == SLOTS && k < |stopped.writers|
            && WriterStep(stopped, k, wake).writers[k].AsleepHead?
  {
  }
}
